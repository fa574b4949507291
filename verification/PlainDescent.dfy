/** The descent without the correlation penalty, in closed form: n steps multiply each starting
    weight by exp(-n * (eta / tau) * s).  The documented optimum takes the exponent -s / tau,
    so the solver returns it only when n * eta is 1 or the scores do not differ. */
module PlainDescent {
  import opened Results
  import opened Vectors
  import opened Simplex
  import opened MirrorDescent
  import opened MirrorOptimum

  /** The exponential and the natural logarithm, by the laws used of them. */
  ghost predicate TruePair(exp: real -> real, log: real -> real) {
    && AlwaysPositive(exp) && StrictlyIncreasing(exp) && Exponential(exp) && Logarithm(log)
    && (forall x :: log(exp(x)) == x) && forall x :: x > 0.0 ==> exp(log(x)) == x
  }

  /** The weights w tilted by exp(-t * s) and normalised. */
  function Softmin(exp: real -> real, scores: seq<real>, w: seq<real>, t: real): (r: seq<real>)
    requires AlwaysPositive(exp) && Interior(w, |scores|)
    ensures Interior(r, |scores|)
  {
    TiltedPositive(exp, Scale(-t, scores), w);
    Normalise(Tilted(exp, Scale(-t, scores), w))
  }

  /** Tilting by nothing, or by the same for every model, changes no weights. */
  lemma LevelSoftmin(exp: real -> real, scores: seq<real>, w: seq<real>, t: real)
    requires AlwaysPositive(exp) && Interior(w, |scores|) && Level(Scale(-t, scores))
    ensures Softmin(exp, scores, w, t) == w
  {
    hide Sum, Times, Over, Positive, Normalise;
    var g := Scale(-t, scores);
    var v, e := Tilted(exp, g, w), exp(g[0]);
    TiltedPositive(exp, g, w);
    SumScale(e, w, v);
    TimesOne(e);
    forall i | 0 <= i < |w| ensures Over(v[i], Sum(v)) == w[i] {
      FactorCancels(e, w[i]);
    }
    assert Normalise(v) == w;
  }

  /** Two tilts after one another add up. */
  lemma SoftminAdds(exp: real -> real, scores: seq<real>, w: seq<real>, t: real, u: real)
    requires AlwaysPositive(exp) && Exponential(exp) && Interior(w, |scores|)
    ensures Softmin(exp, scores, Softmin(exp, scores, w, t), u) == Softmin(exp, scores, w, t + u)
  {
    hide Sum, Times, Over, Positive, Normalise, AlwaysPositive;
    var first := Tilted(exp, Scale(-t, scores), w);
    var mid := Softmin(exp, scores, w, t);
    var second, both := Tilted(exp, Scale(-u, scores), mid), Tilted(exp, Scale(-(t + u), scores), w);
    TiltedPositive(exp, Scale(-t, scores), w);
    TiltedPositive(exp, Scale(-u, scores), mid);
    TiltedPositive(exp, Scale(-(t + u), scores), w);
    var z := Sum(first);
    forall i | 0 <= i < |w| ensures both[i] == Times(z, second[i]) {
      SplitExponent(t, u, scores[i]);
      var x, y := Times(-t, scores[i]), Times(-u, scores[i]);
      assert exp(x + y) == Times(exp(x), exp(y));
      MovedFactor(z, exp(x), exp(y), w[i]);
    }
    SumScale(z, second, both);
    forall i | 0 <= i < |w| ensures Over(both[i], Sum(both)) == Over(second[i], Sum(second)) {
      CommonFactor(z, second[i], Sum(second));
    }
    assert Normalise(both) == Normalise(second);
  }

  lemma SplitExponent(t: real, u: real, s: real)
    ensures Times(-(t + u), s) == Times(-t, s) + Times(-u, s)
  {
  }

  lemma MovedFactor(z: real, a: real, b: real, w: real)
    requires z > 0.0
    ensures Times(Times(a, b), w) == Times(z, Times(b, Over(Times(a, w), z)))
  {
    Quotient(Times(a, w), z);
    assert Times(z, Times(b, Over(Times(a, w), z))) == Times(b, Times(z, Over(Times(a, w), z)));
  }

  // ---- the descent ----

  /** Without penalty a mirror step is a tilt by the rate over the temperature. */
  lemma PlainStep(exp: real -> real, p: Solver, scores: seq<real>, c: seq<seq<real>>, w: seq<real>)
    requires Posed(exp, p, scores, c) && Interior(w, |scores|) && Exponential(exp) && p.penalty == 0.0
    ensures MirrorStep(exp, p, scores, c, w) == Softmin(exp, scores, w, Over(p.rate, p.temperature))
  {
    hide Sum, Times, Over, Positive, IsSimplex, Normalise, AlwaysPositive, Exponential;
    StableStepIsPlainStep(exp, p, scores, c, w);
    assert Drift(p, scores, c, w) == Scale(-Over(p.rate, p.temperature), scores);
  }

  /** How many steps the descent takes: up to n, ending with the first that moves less than
      the tolerance. */
  function Taken(exp: real -> real, p: Solver, scores: seq<real>, c: seq<seq<real>>, w: seq<real>, n: nat): (k: nat)
    requires Posed(exp, p, scores, c) && Interior(w, |scores|)
    ensures k <= n && (n > 0 ==> k > 0)
    decreases n
  {
    if n == 0 then 0
    else
      var v := MirrorStep(exp, p, scores, c, w);
      if Gap(v, w) < p.tol then 1 else 1 + Taken(exp, p, scores, c, v, n - 1)
  }

  /** The descent in closed form, from any starting weights. */
  lemma {:induction false} DescendClosed(exp: real -> real, p: Solver, scores: seq<real>, c: seq<seq<real>>,
                                         w: seq<real>, n: nat)
    requires Posed(exp, p, scores, c) && Interior(w, |scores|) && Exponential(exp) && p.penalty == 0.0
    ensures Descend(exp, p, scores, c, w, n)
         == Softmin(exp, scores, w, Times(Taken(exp, p, scores, c, w, n) as real, Over(p.rate, p.temperature)))
    decreases n
  {
    hide Sum, Times, Over, Positive, IsSimplex, MirrorStep, Softmin, Gap, AlwaysPositive, Exponential;
    var h := Over(p.rate, p.temperature);
    if n == 0 {
      NoSteps(exp, scores, w, h);
    } else {
      var v := MirrorStep(exp, p, scores, c, w);
      PlainStep(exp, p, scores, c, w);
      TimesOne(h);
      if Gap(v, w) >= p.tol {
        DescendClosed(exp, p, scores, c, v, n - 1);
        var k := Taken(exp, p, scores, c, v, n - 1);
        SoftminAdds(exp, scores, w, h, Times(k as real, h));
        OneMore(k, h);
      }
    }
  }

  lemma NoSteps(exp: real -> real, scores: seq<real>, w: seq<real>, h: real)
    requires AlwaysPositive(exp) && Interior(w, |scores|)
    ensures Softmin(exp, scores, w, Times(0 as real, h)) == w
  {
    hide Softmin;
    TimesZero(h);
    forall i | 0 <= i < |scores| ensures Scale(-0.0, scores)[i] == 0.0 {
      TimesZero(scores[i]);
    }
    LevelSoftmin(exp, scores, w, 0.0);
  }

  lemma OneMore(k: nat, h: real)
    ensures Times((1 + k) as real, h) == h + Times(k as real, h)
  {
  }

  // ---- against the documented optimum ----

  /** Tilts of different strength agree only when the scores do not differ. */
  lemma SoftminEqualIff(exp: real -> real, scores: seq<real>, w: seq<real>, t: real, u: real)
    requires AlwaysPositive(exp) && StrictlyIncreasing(exp) && Exponential(exp) && Interior(w, |scores|)
    ensures Softmin(exp, scores, w, t) == Softmin(exp, scores, w, u) <==> t == u || Level(scores)
  {
    hide Sum, Times, Over, Positive, IsSimplex, Softmin, AlwaysPositive, Exponential, StrictlyIncreasing;
    if Level(scores) {
      assert Level(Scale(-t, scores)) && Level(Scale(-u, scores));
      LevelSoftmin(exp, scores, w, t);
      LevelSoftmin(exp, scores, w, u);
    }
    if t != u && Softmin(exp, scores, w, t) == Softmin(exp, scores, w, u) {
      var v := Softmin(exp, scores, w, t);
      SoftminAdds(exp, scores, w, t, u - t);
      assert t + (u - t) == u;
      FixedTilt(exp, scores, v, u - t);
    }
  }

  /** A tilt that leaves weights in place tilts every model alike. */
  lemma FixedTilt(exp: real -> real, scores: seq<real>, w: seq<real>, t: real)
    requires AlwaysPositive(exp) && StrictlyIncreasing(exp) && Interior(w, |scores|) && t != 0.0
    requires Softmin(exp, scores, w, t) == w
    ensures Level(scores)
  {
    hide Sum, Times, Over, Normalise;
    var g := Scale(-t, scores);
    var v := Tilted(exp, g, w);
    TiltedPositive(exp, g, w);
    forall i | 0 <= i < |w| ensures exp(g[i]) == Sum(v) {
      assert w[i] > 0.0 && Over(v[i], Sum(v)) == w[i];
      FactorIsTotal(exp(g[i]), w[i], Sum(v));
    }
    forall i, j | 0 <= i < |scores| && 0 <= j < |scores| ensures scores[i] == scores[j] {
      assert g[i] == g[j];
      EqualProducts(-t, scores[i], scores[j]);
    }
  }

  lemma EqualProducts(t: real, a: real, b: real)
    requires t != 0.0 && Times(t, a) == Times(t, b)
    ensures a == b
  {
    assert t * (a - b) == 0.0;
  }

  /** The documented optimum without penalty. */
  function Gibbs(exp: real -> real, p: Solver, scores: seq<real>): (w: seq<real>)
    requires AlwaysPositive(exp) && p.Valid() && |scores| >= 1
    ensures Interior(w, |scores|)
  {
    UniformSimplex(|scores|);
    Softmin(exp, scores, Uniform(|scores|), Over(1.0, p.temperature))
  }

  /** It minimises the documented objective, whatever the matrix. */
  lemma GibbsIsOptimum(exp: real -> real, log: real -> real, p: Solver, scores: seq<real>, c: seq<seq<real>>)
    requires TruePair(exp, log) && Posed(exp, p, scores, c) && p.penalty == 0.0
    ensures OnlyOptimum(log, p, scores, c, Gibbs(exp, p, scores))
  {
    hide Sum, Times, Over, Dot, Positive, IsSimplex, Gibbs, Documented, Logarithm, Exponential, StrictlyIncreasing;
    var w, o := Gibbs(exp, p, scores), Zeros(|scores|);
    ZerosSemidefinite(|scores|);
    GibbsLevel(exp, log, p, scores);
    EntropicOptimum(log, p, scores, o, w);
    forall z: seq<real> | |z| == |scores| && IsSimplex(z) && z != w
      ensures Documented(log, p, scores, c, w) < Documented(log, p, scores, c, z)
    {
      MatrixIrrelevant(log, p, scores, c, o, w);
      MatrixIrrelevant(log, p, scores, c, o, z);
    }
  }

  lemma MatrixIrrelevant(log: real -> real, p: Solver, scores: seq<real>, c: seq<seq<real>>, o: seq<seq<real>>,
                         z: seq<real>)
    requires p.penalty == 0.0 && |z| == |scores| && SquareOf(c, |scores|) && SquareOf(o, |scores|)
    ensures Documented(log, p, scores, c, z) == Documented(log, p, scores, o, z)
  {
    hide Times, Dot, NegativeEntropy, ModelAveraging.Quadratic;
    TimesZero(0.5);
    TimesZero(ModelAveraging.Quadratic(c, z));
    TimesZero(ModelAveraging.Quadratic(o, z));
  }

  function Zeros(n: nat): (c: seq<seq<real>>)
    ensures SquareOf(c, n) && forall i, j :: 0 <= i < n && 0 <= j < n ==> c[i][j] == 0.0
  {
    seq(n, i => Const(n, 0.0))
  }

  lemma ZerosSemidefinite(n: nat)
    ensures Symmetric(Zeros(n)) && Semidefinite(Zeros(n))
  {
    hide Times, Dot, Zeros, ModelAveraging.Quadratic;
    forall x: seq<real> | |x| == n ensures ModelAveraging.Quadratic(Zeros(n), x) >= Times(0.0, Dot(x, x)) {
      ZeroForm(x);
      TimesZero(Dot(x, x));
    }
  }

  lemma ZeroForm(x: seq<real>)
    ensures ModelAveraging.Quadratic(Zeros(|x|), x) == 0.0
  {
    hide Times, Dot;
    var c := Zeros(|x|);
    var cx := seq(|x|, i requires 0 <= i < |x| => Dot(c[i], x));
    forall i | 0 <= i < |x| ensures cx[i] == 0.0 {
      DotZero(c[i], x);
    }
    DotZero(cx, x);
    DotSym(x, cx);
  }

  lemma GibbsLevel(exp: real -> real, log: real -> real, p: Solver, scores: seq<real>)
    requires TruePair(exp, log) && p.Valid() && |scores| >= 1 && p.penalty == 0.0
    ensures Level(EntropicGradient(log, p, scores, Zeros(|scores|), Gibbs(exp, p, scores)))
  {
    hide Sum, Times, Over, Dot, IsSimplex, Softmin, Positive, Logarithm, StrictlyIncreasing, Exponential,
         EntropicGradient, Zeros;
    var k, tau := |scores|, p.temperature;
    UniformSimplex(k);
    var w, c := Gibbs(exp, p, scores), Zeros(k);
    var shift := LogSoftmin(exp, log, scores, Uniform(k), Over(1.0, tau), Over(1.0, k as real));
    var g := EntropicGradient(log, p, scores, c, w);
    forall i | 0 <= i < k ensures g[i] == Times(tau, shift) {
      var x := Times(-Over(1.0, tau), scores[i]);
      Distribute(tau, x, shift);
      Undo(tau, scores[i]);
      TimesZero(Dot(c[i], w));
    }
  }

  /** The logarithm of tilted uniform weights is the exponent, up to one constant. */
  lemma LogSoftmin(exp: real -> real, log: real -> real, scores: seq<real>, u: seq<real>, t: real, share: real)
    returns (shift: real)
    requires TruePair(exp, log) && Interior(u, |scores|) && forall i :: 0 <= i < |u| ==> u[i] == share
    ensures forall i :: 0 <= i < |scores| ==> log(Softmin(exp, scores, u, t)[i]) == Times(-t, scores[i]) + shift
  {
    hide Sum, Times, Over, Logarithm, StrictlyIncreasing;
    var v := Tilted(exp, Scale(-t, scores), u);
    TiltedPositive(exp, Scale(-t, scores), u);
    assert u[0] == share > 0.0;
    OverSign(share, Sum(v));
    shift := log(Over(share, Sum(v)));
    var w := Softmin(exp, scores, u, t);
    forall i | 0 <= i < |scores| ensures log(w[i]) == Times(-t, scores[i]) + shift {
      var x := Times(-t, scores[i]);
      FactorOut(exp(x), share, Sum(v));
      assert w[i] == Times(exp(x), Over(share, Sum(v)));
      Combine(exp, log, x, Over(share, Sum(v)));
    }
  }

  lemma Combine(exp: real -> real, log: real -> real, x: real, z: real)
    requires TruePair(exp, log) && z > 0.0
    ensures log(Times(exp(x), z)) == x + log(z)
  {
    hide Times, Logarithm, StrictlyIncreasing;
    assert exp(x + log(z)) == Times(exp(x), exp(log(z)));
  }

  lemma FactorOut(e: real, u: real, z: real)
    requires z > 0.0
    ensures Over(Times(e, u), z) == Times(e, Over(u, z))
  {
    Quotient(u, z);
    assert Times(z, Times(e, Over(u, z))) == Times(e, u);
  }

  lemma Undo(tau: real, s: real)
    requires tau > 0.0
    ensures Times(tau, Times(-Over(1.0, tau), s)) == -s
  {
    Quotient(1.0, tau);
    assert Times(tau, Times(-Over(1.0, tau), s)) == -Times(Times(tau, Over(1.0, tau)), s);
  }

  /** What the solver descends to from uniform weights is the documented optimum exactly when
      the steps it took make up a rate of 1, or all scores are equal. */
  lemma {:induction false} DescentFindsOptimumIff(exp: real -> real, log: real -> real, p: Solver, scores: seq<real>,
                                                  c: seq<seq<real>>, n: nat)
    requires TruePair(exp, log) && Posed(exp, p, scores, c) && p.penalty == 0.0
    ensures var u := Start(None, |scores|);
      OnlyOptimum(log, p, scores, c, Descend(exp, p, scores, c, u, n))
      <==> Times(Taken(exp, p, scores, c, u, n) as real, p.rate) == 1.0 || Level(scores)
    ensures var u := Start(None, |scores|);
      OnlyOptimum(log, p, scores, c, Descend(exp, p, scores, c, u, n))
      <==> Descend(exp, p, scores, c, u, n) == Gibbs(exp, p, scores)
  {
    hide Sum, Times, Over, Positive, Softmin, OnlyOptimum, Descend, Taken, Logarithm, Exponential, StrictlyIncreasing,
         Level;
    var u := Start(None, |scores|);
    var d, k := Descend(exp, p, scores, c, u, n), Taken(exp, p, scores, c, u, n);
    DescendClosed(exp, p, scores, c, u, n);
    GibbsIsOptimum(exp, log, p, scores, c);
    SoftminEqualIff(exp, scores, u, Times(k as real, Over(p.rate, p.temperature)), Over(1.0, p.temperature));
    RatesAgree(k as real, p.rate, p.temperature);
    if OnlyOptimum(log, p, scores, c, d) {
      OnlyOne(log, p, scores, c, d, Gibbs(exp, p, scores));
    }
  }

  lemma RatesAgree(k: real, rate: real, tau: real)
    requires tau > 0.0
    ensures Times(k, Over(rate, tau)) == Over(1.0, tau) <==> Times(k, rate) == 1.0
  {
    Quotient(rate, tau);
    Quotient(1.0, tau);
    var l := Times(k, Over(rate, tau));
    assert Times(tau, l) == Times(k, rate);
    if Times(tau, l) == Times(tau, Over(1.0, tau)) {
      EqualProducts(tau, l, Over(1.0, tau));
    }
  }

  /** The documented optimum with the floor mixed in, as the solver is meant to return it. */
  function FlooredOptimum(exp: real -> real, p: Solver, scores: seq<real>): (w: seq<real>)
    requires AlwaysPositive(exp) && p.Valid() && |scores| >= 1
    ensures |w| == |scores|
  {
    LaplaceMixesUniform(Floor(p.floor, |scores|), Gibbs(exp, p, scores));
    Laplace(Floor(p.floor, |scores|), Gibbs(exp, p, scores))
  }

  /** The solver, started without weights, returns it exactly then. */
  lemma {:induction false} SolutionIsOptimumIff(exp: real -> real, log: real -> real, p: Solver, scores: seq<real>,
                                                c: seq<seq<real>>)
    requires TruePair(exp, log) && Posed(exp, p, scores, c) && p.penalty == 0.0
    ensures Solution(exp, p, scores, c, None) == FlooredOptimum(exp, p, scores)
      <==> Times(Taken(exp, p, scores, c, Start(None, |scores|), p.maxIter) as real, p.rate) == 1.0 || Level(scores)
  {
    hide Sum, Times, Over, Positive, IsSimplex, OnlyOptimum, Descend, Taken, Start, Logarithm, Exponential,
         StrictlyIncreasing, Gibbs, Raise, Laplace, Level;
    DescentFindsOptimumIff(exp, log, p, scores, c, p.maxIter);
    FloorInjective(Floor(p.floor, |scores|), Descend(exp, p, scores, c, Start(None, |scores|), p.maxIter),
                   Gibbs(exp, p, scores));
  }

  /** n steps of this rate make up 1. */
  predicate Completes(rate: real, n: nat) { Times(n as real, rate) == 1.0 }

  /** For scores that differ it never does unless 1 over the rate is a whole number of steps
      within the limit. */
  lemma OddRateMisses(exp: real -> real, log: real -> real, p: Solver, scores: seq<real>, c: seq<seq<real>>)
    requires TruePair(exp, log) && Posed(exp, p, scores, c) && p.penalty == 0.0 && !Level(scores)
    requires forall n: nat :: 1 <= n <= p.maxIter ==> !Completes(p.rate, n)
    ensures Solution(exp, p, scores, c, None) != FlooredOptimum(exp, p, scores)
  {
    hide Sum, Times, Over, Positive, IsSimplex, Taken, Start, Logarithm, Exponential, StrictlyIncreasing, Level,
         Solution, FlooredOptimum;
    SolutionIsOptimumIff(exp, log, p, scores, c);
    var n := Taken(exp, p, scores, c, Start(None, |scores|), p.maxIter);
    assert !Completes(p.rate, n);
  }

  /** A rate above 1 is no such number. */
  lemma FastRateMisses(exp: real -> real, log: real -> real, p: Solver, scores: seq<real>, c: seq<seq<real>>)
    requires TruePair(exp, log) && Posed(exp, p, scores, c) && p.penalty == 0.0 && p.rate > 1.0 && !Level(scores)
    ensures Solution(exp, p, scores, c, None) != FlooredOptimum(exp, p, scores)
  {
    hide Sum, Times, Over, Positive, IsSimplex, Logarithm, Exponential, StrictlyIncreasing, Level, Solution,
         FlooredOptimum;
    forall n: nat | 1 <= n <= p.maxIter ensures !Completes(p.rate, n) {
      TimesMonotone(p.rate, 1.0, n as real);
      TimesSym(p.rate, n as real);
      TimesOne(p.rate);
    }
    OddRateMisses(exp, log, p, scores, c);
  }

  lemma FloorInjective(e: real, a: seq<real>, b: seq<real>)
    requires |a| == |b| && IsSimplex(a) && IsSimplex(b) && e > 0.0 && Times(|a| as real, e) < 1.0
    ensures Sum(Raise(e, a)) > 0.0 && Sum(Raise(e, b)) > 0.0
    ensures Laplace(e, a) == Laplace(e, b) <==> a == b
  {
    hide Sum, Times, Normalise, Laplace;
    LaplaceMixesUniform(e, a);
    LaplaceMixesUniform(e, b);
    if Raise(e, a) == Raise(e, b) {
      forall i | 0 <= i < |a| ensures a[i] == b[i] {
        assert Raise(e, a)[i] == Raise(e, b)[i];
        EqualProducts(1.0 - Times(|a| as real, e), a[i], b[i]);
      }
    }
  }
}
