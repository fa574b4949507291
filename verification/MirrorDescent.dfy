/** OrthogonalityRegularizedSolver: entropic mirror descent on the probability simplex.
    exp is any function the caller supplies; what a result needs of it is stated there. */
module MirrorDescent {
  import opened Results
  import opened Vectors
  import opened Simplex

  ghost predicate AlwaysPositive(f: real -> real) { forall x :: f(x) > 0.0 }

  ghost predicate Increasing(f: real -> real) { forall x, y :: x <= y ==> f(x) <= f(y) }

  /** Increasing where a logarithm is defined; nothing is asked of it at or below zero. */
  ghost predicate IncreasingOnPositives(f: real -> real) { forall x, y :: 0.0 < x <= y ==> f(x) <= f(y) }

  /** The functional equation of the exponential. */
  ghost predicate Exponential(f: real -> real) { forall x, y :: f(x + y) == Times(f(x), f(y)) }

  datatype Solver = Solver(penalty: real, temperature: real, rate: real, maxIter: nat, tol: real, floor: real) {
    ghost predicate Valid() {
      penalty >= 0.0 && temperature > 0.0 && rate > 0.0 && maxIter >= 1 && tol > 0.0 && floor > 0.0
    }
  }

  datatype Failure = NoScores | MatrixShape | StartShape | StartNegative | StartSum

  const TINY := 0.000000000000000000000000000001

  predicate SquareOf(c: seq<seq<real>>, k: nat) { |c| == k && forall i :: 0 <= i < k ==> |c[i]| == k }

  /** The scaled mirror gradient -(eta / tau) * (s + lambda * C w). */
  function Drift(p: Solver, scores: seq<real>, c: seq<seq<real>>, w: seq<real>): (g: seq<real>)
    requires p.Valid() && |w| == |scores| && SquareOf(c, |scores|)
    ensures |g| == |scores|
    ensures forall i :: 0 <= i < |g| ==> g[i] == Pull(p, c[i], w) + Times(-Over(p.rate, p.temperature), scores[i])
  {
    seq(|scores|, i requires 0 <= i < |scores| => Pull(p, c[i], w) + Times(-Over(p.rate, p.temperature), scores[i]))
  }

  /** The part of the gradient that comes from the correlation row of one model. */
  function Pull(p: Solver, row: seq<real>, w: seq<real>): real
    requires p.Valid() && |row| == |w|
  {
    if p.penalty > 0.0 then Dot(Scale(-Times(Over(p.rate, p.temperature), p.penalty), row), w) else 0.0
  }

  /** Subtracting the largest entry, so that no exponent is positive. */
  function Shifted(g: seq<real>): (r: seq<real>)
    requires |g| >= 1
    ensures |r| == |g| && forall i :: 0 <= i < |g| ==> r[i] == g[i] - MaxOf(g)
  {
    var m := MaxOf(g);
    seq(|g|, i requires 0 <= i < |g| => g[i] - m)
  }

  function Tilted(exp: real -> real, g: seq<real>, w: seq<real>): (r: seq<real>)
    requires |g| == |w|
    ensures |r| == |w| && forall i :: 0 <= i < |w| ==> r[i] == Times(exp(g[i]), w[i])
  {
    seq(|w|, i requires 0 <= i < |w| => Times(exp(g[i]), w[i]))
  }

  /** A tilt by positive factors cannot collapse, so its sum can be divided by. */
  lemma TiltedPositive(exp: real -> real, g: seq<real>, w: seq<real>)
    requires AlwaysPositive(exp) && |g| == |w| >= 1 && Positive(w)
    ensures Positive(Tilted(exp, g, w)) && Sum(Tilted(exp, g, w)) > 0.0
    ensures IsSimplex(Normalise(Tilted(exp, g, w))) && Positive(Normalise(Tilted(exp, g, w)))
  {
    hide Sum, Times, Normalise;
    forall i | 0 <= i < |w| ensures Tilted(exp, g, w)[i] > 0.0 {
      var x := g[i];
      assert exp(x) > 0.0;
      PositiveProduct(exp(x), w[i]);
    }
    PositiveSum(Tilted(exp, g, w));
    NormaliseSimplex(Tilted(exp, g, w));
  }

  /** The problem handed to the solver is well formed. */
  ghost predicate Posed(exp: real -> real, p: Solver, scores: seq<real>, c: seq<seq<real>>) {
    AlwaysPositive(exp) && p.Valid() && |scores| >= 1 && SquareOf(c, |scores|)
  }

  ghost predicate Interior(w: seq<real>, k: nat) { |w| == k && IsSimplex(w) && Positive(w) }

  function MirrorStep(exp: real -> real, p: Solver, scores: seq<real>, c: seq<seq<real>>, w: seq<real>): (r: seq<real>)
    requires Posed(exp, p, scores, c) && Interior(w, |scores|)
    ensures Interior(r, |scores|)
  {
    var g := Shifted(Drift(p, scores, c, w));
    TiltedPositive(exp, g, w);
    Normalise(Tilted(exp, g, w))
  }

  /** The largest change of an entry. */
  function Gap(a: seq<real>, b: seq<real>): real
    requires |a| == |b| >= 1
  {
    MaxOf(AbsOf(Minus(a, b)))
  }

  /** At most n mirror steps, stopping after the first one that moves less than tol. */
  function Descend(exp: real -> real, p: Solver, scores: seq<real>, c: seq<seq<real>>, w: seq<real>,
                   n: nat): (r: seq<real>)
    requires Posed(exp, p, scores, c) && Interior(w, |scores|)
    ensures Interior(r, |scores|)
    decreases n
  {
    if n == 0 then w
    else
      var v := MirrorStep(exp, p, scores, c, w);
      if Gap(v, w) < p.tol then v else Descend(exp, p, scores, c, v, n - 1)
  }

  /** Entries kept away from zero. */
  function Lifted(w: seq<real>): (r: seq<real>)
    ensures |r| == |w| && forall i :: 0 <= i < |w| ==> r[i] == Max(w[i], TINY)
  {
    seq(|w|, i requires 0 <= i < |w| => Max(w[i], TINY))
  }

  ghost predicate Startable(current: Option<seq<real>>, k: nat) {
    current.Some? ==> |current.value| == k && NonNeg(current.value) && Sum(current.value) > 0.0
  }

  /** The starting weights: the given ones normalised and lifted, or the uniform ones. */
  function Start(current: Option<seq<real>>, k: nat): (w: seq<real>)
    requires k >= 1 && Startable(current, k)
    ensures Interior(w, k)
  {
    match current
    case None => UniformSimplex(k); Uniform(k)
    case Some(given) =>
      var lifted := Lifted(Normalise(given));
      PositiveSum(lifted);
      NormaliseSimplex(lifted);
      Normalise(lifted)
  }

  /** The weights the solver returns: descend, then keep every model above the floor. */
  function Solution(exp: real -> real, p: Solver, scores: seq<real>, c: seq<seq<real>>,
                    current: Option<seq<real>>): (w: seq<real>)
    requires Posed(exp, p, scores, c) && Startable(current, |scores|)
    ensures |w| == |scores| && IsSimplex(w)
    ensures forall i :: 0 <= i < |w| ==> w[i] >= Floor(p.floor, |w|)
  {
    hide Descend, Start, Positive, IsSimplex, Sum, Times;
    var w := Descend(exp, p, scores, c, Start(current, |scores|), p.maxIter);
    var e := Floor(p.floor, |scores|);
    LaplaceMixesUniform(e, w);
    Laplace(e, w)
  }

  method Solve(exp: real -> real, p: Solver, scores: seq<real>, c: seq<seq<real>>, current: Option<seq<real>>)
    returns (r: Result<seq<real>, Failure>)
    requires AlwaysPositive(exp) && p.Valid()
    ensures r.Ok? <==> |scores| >= 1 && SquareOf(c, |scores|) && Startable(current, |scores|)
    ensures r.Ok? ==> r.value == Solution(exp, p, scores, c, current)
    ensures r == Err(NoScores) <==> scores == []
    ensures r == Err(MatrixShape) <==> scores != [] && !SquareOf(c, |scores|)
    ensures r == Err(StartShape) <==>
      scores != [] && SquareOf(c, |scores|) && current.Some? && |current.value| != |scores|
    ensures r == Err(StartNegative) <==>
      scores != [] && SquareOf(c, |scores|) && current.Some? && |current.value| == |scores| && !NonNeg(current.value)
    ensures r == Err(StartSum) <==>
      && scores != [] && SquareOf(c, |scores|) && current.Some? && |current.value| == |scores| && NonNeg(current.value)
      && Sum(current.value) <= 0.0
  {
    hide Sum, Times, Dot, Scale, Normalise, AbsOf, Drift, Shifted, Tilted, Positive, IsSimplex, Gap;
    var k := |scores|;
    if k < 1 {
      return Err(NoScores);
    }
    if !SquareOf(c, k) {
      return Err(MatrixShape);
    }
    if current.Some? {
      if |current.value| != k {
        return Err(StartShape);
      }
      if i :| 0 <= i < k && current.value[i] < 0.0 {
        return Err(StartNegative);
      }
      if Sum(current.value) <= 0.0 {
        return Err(StartSum);
      }
    }
    var w := Start(current, k);
    var m := 0;
    var settled := false;
    while m < p.maxIter && !settled
      invariant 0 <= m <= p.maxIter && Interior(w, k)
      invariant settled ==> w == Descend(exp, p, scores, c, Start(current, k), p.maxIter)
      invariant !settled ==>
        Descend(exp, p, scores, c, w, p.maxIter - m) == Descend(exp, p, scores, c, Start(current, k), p.maxIter)
      decreases p.maxIter - m, !settled
    {
      var v := Drift(p, scores, c, w);
      v := Shifted(v);
      TiltedPositive(exp, v, w);
      v := Tilted(exp, v, w);
      v := Normalise(v);
      assert v == MirrorStep(exp, p, scores, c, w);
      var diff := Gap(v, w);
      w := v;
      settled := diff < p.tol;
      m := m + 1;
    }
    var e := Floor(p.floor, k);
    LaplaceMixesUniform(e, w);
    r := Ok(Laplace(e, w));
  }

  // ---- what the solver promises ----

  /** The max shift changes nothing: for a true exponential a mirror step is the plain
      exponentiated-gradient step. */
  lemma StableStepIsPlainStep(exp: real -> real, p: Solver, scores: seq<real>, c: seq<seq<real>>, w: seq<real>)
    requires Posed(exp, p, scores, c) && Interior(w, |scores|) && Exponential(exp)
    ensures var plain := Tilted(exp, Drift(p, scores, c, w), w);
      Sum(plain) > 0.0 && MirrorStep(exp, p, scores, c, w) == Normalise(plain)
  {
    hide Sum, Times, Over, Dot, Scale, Drift, Normalise, IsSimplex, Positive;
    var g := Drift(p, scores, c, w);
    var stable, plain := Tilted(exp, Shifted(g), w), Tilted(exp, g, w);
    TiltedPositive(exp, g, w);
    TiltedPositive(exp, Shifted(g), w);
    var z := exp(MaxOf(g));
    forall i | 0 <= i < |w| ensures plain[i] == Times(z, stable[i]) {
      assert g[i] == MaxOf(g) + Shifted(g)[i];
      TimesAssoc(z, exp(Shifted(g)[i]), w[i]);
    }
    SumScale(z, stable, plain);
    forall i | 0 <= i < |w| ensures Normalise(plain)[i] == Normalise(stable)[i] {
      CommonFactor(z, stable[i], Sum(stable));
    }
    assert Normalise(plain) == Normalise(stable);
  }

  lemma CommonFactor(z: real, a: real, b: real)
    requires z > 0.0 && b > 0.0
    ensures Times(z, b) > 0.0
    ensures Over(Times(z, a), Times(z, b)) == Over(a, b)
  {
    PositiveProduct(z, b);
    var q := Over(a, b);
    Quotient(a, b);
    assert Times(Times(z, b), q) == Times(z, a);
  }

  /** Adding the same amount to every score changes no step and so no result. */
  lemma {:induction false} CommonScoreIrrelevant(exp: real -> real, p: Solver, scores: seq<real>, raised: seq<real>,
                                                 d: real, c: seq<seq<real>>, w: seq<real>, n: nat)
    requires Posed(exp, p, scores, c) && Interior(w, |scores|)
    requires |raised| == |scores| && forall i :: 0 <= i < |scores| ==> raised[i] == scores[i] + d
    ensures Descend(exp, p, raised, c, w, n) == Descend(exp, p, scores, c, w, n)
    decreases n
  {
    hide Sum, Times, Over, IsSimplex, Positive, Gap, MirrorStep;
    if n > 0 {
      CommonScoreStep(exp, p, scores, raised, d, c, w);
      CommonScoreIrrelevant(exp, p, scores, raised, d, c, MirrorStep(exp, p, scores, c, w), n - 1);
    }
  }

  lemma CommonScoreStep(exp: real -> real, p: Solver, scores: seq<real>, raised: seq<real>, d: real, c: seq<seq<real>>,
                        w: seq<real>)
    requires Posed(exp, p, scores, c) && Interior(w, |scores|)
    requires |raised| == |scores| && forall i :: 0 <= i < |scores| ==> raised[i] == scores[i] + d
    ensures MirrorStep(exp, p, raised, c, w) == MirrorStep(exp, p, scores, c, w)
  {
    hide Normalise, IsSimplex, Positive, AlwaysPositive, Tilted, Drift, Shifted;
    CommonDrift(p, scores, raised, d, c, w);
  }

  lemma CommonDrift(p: Solver, scores: seq<real>, raised: seq<real>, d: real, c: seq<seq<real>>, w: seq<real>)
    requires p.Valid() && SquareOf(c, |scores|) && |w| == |scores| == |raised| >= 1
    requires forall i :: 0 <= i < |scores| ==> raised[i] == scores[i] + d
    ensures Shifted(Drift(p, raised, c, w)) == Shifted(Drift(p, scores, c, w))
  {
    hide Times, Over, Pull, Drift, MaxOf;
    var g, h := Drift(p, scores, c, w), Drift(p, raised, c, w);
    var s := -Over(p.rate, p.temperature);
    forall i | 0 <= i < |g| ensures h[i] == g[i] + Times(s, d) {
      Distribute(s, scores[i], d);
    }
  }

  lemma SolutionIgnoresCommonScore(exp: real -> real, p: Solver, scores: seq<real>, raised: seq<real>, d: real,
                                   c: seq<seq<real>>, current: Option<seq<real>>)
    requires Posed(exp, p, scores, c) && Startable(current, |scores|)
    requires |raised| == |scores| && forall i :: 0 <= i < |scores| ==> raised[i] == scores[i] + d
    ensures Solution(exp, p, raised, c, current) == Solution(exp, p, scores, c, current)
  {
    hide Descend, Laplace, Start, Floor, Interior;
    CommonScoreIrrelevant(exp, p, scores, raised, d, c, Start(current, |scores|), p.maxIter);
  }

  // ---- the gradient behind the step ----

  /** s + lambda * C w, the gradient of the penalised score. */
  function Gradient(p: Solver, scores: seq<real>, c: seq<seq<real>>, w: seq<real>): (g: seq<real>)
    requires |w| == |scores| && SquareOf(c, |scores|)
    ensures |g| == |scores|
    ensures forall i :: 0 <= i < |g| ==> g[i] == scores[i] + Times(p.penalty, Dot(c[i], w))
  {
    seq(|scores|, i requires 0 <= i < |scores| => scores[i] + Times(p.penalty, Dot(c[i], w)))
  }

  /** A mirror step follows this gradient down, at the rate over the temperature. */
  lemma DriftIsGradient(p: Solver, scores: seq<real>, c: seq<seq<real>>, w: seq<real>, i: nat)
    requires p.Valid() && |w| == |scores| && SquareOf(c, |scores|) && i < |scores|
    ensures Drift(p, scores, c, w)[i] == Times(-Over(p.rate, p.temperature), Gradient(p, scores, c, w)[i])
  {
    hide Times, Over, Dot, Scale;
    var h := Over(p.rate, p.temperature);
    var d := Dot(c[i], w);
    DotScale(-Times(h, p.penalty), c[i], Scale(-Times(h, p.penalty), c[i]), w);
    NegatedProduct(h, p.penalty, d);
    Distribute(-h, scores[i], Times(p.penalty, d));
    TimesZero(d);
    TimesZero(-h);
  }

  lemma NegatedProduct(h: real, k: real, d: real)
    ensures Times(-Times(h, k), d) == Times(-h, Times(k, d))
  {
    TimesAssoc(h, k, d);
    assert Times(-h, Times(k, d)) == -Times(h, Times(k, d));
    assert Times(-Times(h, k), d) == -Times(Times(h, k), d);
  }

  /** Model i undercuts model j: against every model k, its score plus the penalty of its
      correlation with k is no larger. */
  ghost predicate Undercuts(p: Solver, scores: seq<real>, c: seq<seq<real>>, i: nat, j: nat)
    requires SquareOf(c, |scores|)
  {
    && i < |scores| && j < |scores|
    && forall k :: 0 <= k < |scores| ==>
         scores[i] + Times(p.penalty, c[i][k]) <= scores[j] + Times(p.penalty, c[j][k])
  }

  /** Without penalty that is a comparison of the two scores. */
  lemma UndercutsWithoutPenalty(p: Solver, scores: seq<real>, c: seq<seq<real>>, i: nat, j: nat)
    requires SquareOf(c, |scores|) && p.penalty == 0.0 && i < |scores| && j < |scores|
    ensures Undercuts(p, scores, c, i, j) <==> scores[i] <= scores[j]
  {
    assert Undercuts(p, scores, c, i, j) ==>
      scores[i] + Times(p.penalty, c[i][0]) <= scores[j] + Times(p.penalty, c[j][0]);
  }

  /** Model i undercuts model j exactly when its entry of the gradient is no larger at
      every weighting. */
  lemma UndercutsIff(p: Solver, scores: seq<real>, c: seq<seq<real>>, i: nat, j: nat)
    requires SquareOf(c, |scores|) && i < |scores| && j < |scores|
    ensures Undercuts(p, scores, c, i, j)
       <==> forall w: seq<real> :: |w| == |scores| && IsSimplex(w) ==>
              Gradient(p, scores, c, w)[i] <= Gradient(p, scores, c, w)[j]
  {
    hide Dot, Times, IsSimplex, Undercuts;
    if Undercuts(p, scores, c, i, j) {
      forall w: seq<real> | |w| == |scores| && IsSimplex(w)
        ensures Gradient(p, scores, c, w)[i] <= Gradient(p, scores, c, w)[j]
      {
        UndercutDescends(p, scores, c, w, i, j);
      }
    }
    if forall w: seq<real> :: |w| == |scores| && IsSimplex(w) ==>
         Gradient(p, scores, c, w)[i] <= Gradient(p, scores, c, w)[j]
    {
      forall k: nat | k < |scores|
        ensures scores[i] + Times(p.penalty, c[i][k]) <= scores[j] + Times(p.penalty, c[j][k])
      {
        var e := Vertex(|scores|, k);
        VertexDot(c[i], k);
        VertexDot(c[j], k);
        VertexSimplex(|scores|, k);
        assert Gradient(p, scores, c, e)[i] <= Gradient(p, scores, c, e)[j];
      }
      UndercutsFromAll(p, scores, c, i, j);
    }
  }

  lemma UndercutsFromAll(p: Solver, scores: seq<real>, c: seq<seq<real>>, i: nat, j: nat)
    requires SquareOf(c, |scores|) && i < |scores| && j < |scores|
    requires forall k: nat :: k < |scores| ==>
      scores[i] + Times(p.penalty, c[i][k]) <= scores[j] + Times(p.penalty, c[j][k])
    ensures Undercuts(p, scores, c, i, j)
  {
  }

  lemma UndercutDescends(p: Solver, scores: seq<real>, c: seq<seq<real>>, w: seq<real>, i: nat, j: nat)
    requires SquareOf(c, |scores|) && |w| == |scores| && IsSimplex(w) && Undercuts(p, scores, c, i, j)
    ensures Gradient(p, scores, c, w)[i] <= Gradient(p, scores, c, w)[j]
  {
    hide Sum, Times;
    var a, b := PenalisedRow(p, scores, c, i), PenalisedRow(p, scores, c, j);
    DotMonotone(w, a, b);
    RowDot(p, scores, c, w, i);
    RowDot(p, scores, c, w, j);
  }

  /** The gradient of one model at each vertex of the simplex. */
  function PenalisedRow(p: Solver, scores: seq<real>, c: seq<seq<real>>, i: nat): (r: seq<real>)
    requires SquareOf(c, |scores|) && i < |scores|
    ensures |r| == |scores| && forall k :: 0 <= k < |r| ==> r[k] == scores[i] + Times(p.penalty, c[i][k])
  {
    seq(|scores|, k requires 0 <= k < |scores| => scores[i] + Times(p.penalty, c[i][k]))
  }

  lemma RowDot(p: Solver, scores: seq<real>, c: seq<seq<real>>, w: seq<real>, i: nat)
    requires SquareOf(c, |scores|) && |w| == |scores| && IsSimplex(w) && i < |scores|
    ensures Dot(w, PenalisedRow(p, scores, c, i)) == Gradient(p, scores, c, w)[i]
  {
    hide Sum, Times, Dot;
    var level := Const(|w|, scores[i]);
    var pulled := Scale(p.penalty, c[i]);
    DotWithConstant(w, level, scores[i]);
    TimesOne(scores[i]);
    DotScale(p.penalty, c[i], pulled, w);
    DotAdd(level, pulled, PenalisedRow(p, scores, c, i), w);
    DotSym(w, level);
    DotSym(w, PenalisedRow(p, scores, c, i));
  }

  // ---- which model gains ----

  /** i has gained on j since the weights w. */
  ghost predicate GainedOn(v: seq<real>, w: seq<real>, i: nat, j: nat)
    requires |v| == |w| && i < |v| && j < |v|
  {
    Times(v[i], w[j]) >= Times(v[j], w[i])
  }

  /** A model that undercuts another never loses weight relative to it, however long the
      descent. */
  lemma {:induction false} UndercutGains(exp: real -> real, p: Solver, scores: seq<real>, c: seq<seq<real>>,
                                         w: seq<real>, v: seq<real>, n: nat, i: nat, j: nat)
    requires Posed(exp, p, scores, c) && Interior(w, |scores|) && Interior(v, |scores|) && Increasing(exp)
    requires Undercuts(p, scores, c, i, j)
    requires GainedOn(v, w, i, j)
    ensures GainedOn(Descend(exp, p, scores, c, v, n), w, i, j)
    decreases n
  {
    hide Sum, Times, Over, IsSimplex, Positive, Gap, MirrorStep, Posed, GainedOn;
    if n > 0 {
      StepGains(exp, p, scores, c, w, v, i, j);
      UndercutGains(exp, p, scores, c, w, MirrorStep(exp, p, scores, c, v), n - 1, i, j);
    }
  }

  lemma StepGains(exp: real -> real, p: Solver, scores: seq<real>, c: seq<seq<real>>, w: seq<real>, v: seq<real>,
                  i: nat, j: nat)
    requires Posed(exp, p, scores, c) && Interior(w, |scores|) && Interior(v, |scores|) && Increasing(exp)
    requires Undercuts(p, scores, c, i, j)
    requires GainedOn(v, w, i, j)
    ensures GainedOn(MirrorStep(exp, p, scores, c, v), w, i, j)
  {
    hide Sum, Times, Over, Normalise, IsSimplex, Dot, Tilted, Drift, Shifted, Gradient;
    var g := Drift(p, scores, c, v);
    var slope := Gradient(p, scores, c, v);
    UndercutDescends(p, scores, c, v, i, j);
    DriftIsGradient(p, scores, c, v, i);
    DriftIsGradient(p, scores, c, v, j);
    var x := Shifted(g);
    TiltedPositive(exp, x, v);
    OverSign(p.rate, p.temperature);
    assert g[i] >= g[j] by { NegatedOrder(Over(p.rate, p.temperature), slope[i], slope[j]); }
    assert exp(x[i]) >= exp(x[j]) > 0.0;
    RatioGrows(exp(x[i]), exp(x[j]), v[i], v[j], w[i], w[j], Sum(Tilted(exp, x, v)));
  }

  lemma NegatedOrder(s: real, a: real, b: real)
    requires s >= 0.0 && a <= b
    ensures Times(-s, a) >= Times(-s, b)
  {
    TimesMonotone(s, a, b);
    assert Times(-s, a) == -Times(s, a) && Times(-s, b) == -Times(s, b);
  }

  lemma RatioGrows(ei: real, ej: real, vi: real, vj: real, wi: real, wj: real, z: real)
    requires ei >= ej > 0.0 && z > 0.0 && vi > 0.0 && vj > 0.0 && wi > 0.0 && wj > 0.0
    requires Times(vi, wj) >= Times(vj, wi)
    ensures Times(Over(Times(ei, vi), z), wj) >= Times(Over(Times(ej, vj), z), wi)
  {
    hide Times, Over;
    PositiveProduct(vi, wj);
    TimesMonotone(Times(vi, wj), ej, ei);
    TimesSym(Times(vi, wj), ej);
    TimesSym(Times(vi, wj), ei);
    TimesMonotone(ej, Times(vj, wi), Times(vi, wj));
    TimesAssoc(ei, vi, wj);
    TimesAssoc(ej, vj, wi);
    OverTimes(Times(ei, vi), z, wj);
    OverTimes(Times(ej, vj), z, wi);
    OverMonotone(Times(Times(ej, vj), wi), Times(Times(ei, vi), wj), z);
  }

  lemma OverTimes(a: real, z: real, b: real)
    requires z > 0.0
    ensures Times(Over(a, z), b) == Over(Times(a, b), z)
  {
    Quotient(a, z);
    assert Times(z, Times(Over(a, z), b)) == Times(a, b);
  }

  lemma OverMonotone(a: real, b: real, z: real)
    requires z > 0.0 && a <= b
    ensures Over(a, z) <= Over(b, z)
  {
  }

  /** The gain over the whole solve, from the starting weights to the descended ones. */
  lemma {:induction false} UndercutGainsFromStart(exp: real -> real, p: Solver, scores: seq<real>, c: seq<seq<real>>,
                                                  current: Option<seq<real>>, i: nat, j: nat)
    requires Posed(exp, p, scores, c) && Startable(current, |scores|) && Increasing(exp)
    requires Undercuts(p, scores, c, i, j)
    ensures var w := Start(current, |scores|);
      GainedOn(Descend(exp, p, scores, c, w, p.maxIter), w, i, j)
  {
    hide Descend, Start;
    var w := Start(current, |scores|);
    TimesSym(w[i], w[j]);
    UndercutGains(exp, p, scores, c, w, w, p.maxIter, i, j);
  }
}
