/** What a mirror step leaves in place.  The descent follows the gradient of the penalised
    score s'w + lambda/2 w'Cw and never that of the entropy, so for a semidefinite C its
    interior fixed points are the minima of the penalised score, while the documented
    optimum, with entropy, stays in place only when it is uniform. */
module MirrorOptimum {
  import opened Vectors
  import opened Simplex
  import opened MirrorDescent
  import ModelAveraging

  ghost predicate StrictlyIncreasing(f: real -> real) { forall x, y :: x < y ==> f(x) < f(y) }

  ghost predicate Symmetric(c: seq<seq<real>>)
    requires SquareOf(c, |c|)
  {
    forall i, j :: 0 <= i < |c| && 0 <= j < |c| ==> c[i][j] == c[j][i]
  }

  ghost predicate Semidefinite(c: seq<seq<real>>)
    requires SquareOf(c, |c|)
  {
    ModelAveraging.AtLeastRidge(c, 0.0)
  }

  /** All entries are equal. */
  ghost predicate Level(g: seq<real>) { forall i, j :: 0 <= i < |g| && 0 <= j < |g| ==> g[i] == g[j] }

  // ---- fixed points of a step ----

  /** A step changes nothing exactly when the gradient is the same for every model. */
  lemma FixedIffLevel(exp: real -> real, p: Solver, scores: seq<real>, c: seq<seq<real>>, w: seq<real>)
    requires Posed(exp, p, scores, c) && Interior(w, |scores|) && StrictlyIncreasing(exp)
    ensures MirrorStep(exp, p, scores, c, w) == w <==> Level(Gradient(p, scores, c, w))
  {
    hide Sum, Times, Over, Dot, Drift, Gradient, Normalise, Positive, MaxOf;
    var g, x := Gradient(p, scores, c, w), Shifted(Drift(p, scores, c, w));
    var t := Tilted(exp, x, w);
    TiltedPositive(exp, x, w);
    assert Level(g) <==> Level(x) by { LevelDrift(p, scores, c, w); }
    if Level(x) {
      var e := exp(x[0]);
      SumScale(e, w, t);
      TimesOne(e);
      forall i | 0 <= i < |w| ensures Over(t[i], Sum(t)) == w[i] {
        FactorCancels(e, w[i]);
      }
      assert Normalise(t) == w;
    }
    if Normalise(t) == w {
      forall i | 0 <= i < |w| ensures exp(x[i]) == Sum(t) {
        assert Over(t[i], Sum(t)) == w[i] > 0.0 by { assert Positive(w); EntryPositive(w, i); }
        FactorIsTotal(exp(x[i]), w[i], Sum(t));
      }
    }
  }

  lemma EntryPositive(w: seq<real>, i: nat)
    requires Positive(w) && i < |w|
    ensures w[i] > 0.0
  {
  }

  lemma FactorCancels(e: real, w: real)
    requires e > 0.0
    ensures Over(Times(e, w), e) == w
  {
  }

  lemma FactorIsTotal(e: real, w: real, z: real)
    requires z > 0.0 && w > 0.0 && Over(Times(e, w), z) == w
    ensures e == z
  {
    Quotient(Times(e, w), z);
    assert (e - z) * w == 0.0;
  }

  lemma LevelDrift(p: Solver, scores: seq<real>, c: seq<seq<real>>, w: seq<real>)
    requires p.Valid() && |w| == |scores| >= 1 && SquareOf(c, |scores|)
    ensures Level(Gradient(p, scores, c, w)) <==> Level(Shifted(Drift(p, scores, c, w)))
  {
    hide Times, Over, Drift, Gradient, MaxOf;
    var g, d := Gradient(p, scores, c, w), Drift(p, scores, c, w);
    var h := Over(p.rate, p.temperature);
    OverSign(p.rate, p.temperature);
    forall i, j | 0 <= i < |g| && 0 <= j < |g| ensures g[i] == g[j] <==> Shifted(d)[i] == Shifted(d)[j] {
      DriftIsGradient(p, scores, c, w, i);
      DriftIsGradient(p, scores, c, w, j);
      SameFactor(h, g[i], g[j]);
    }
  }

  lemma SameFactor(h: real, a: real, b: real)
    requires h > 0.0
    ensures a == b <==> Times(-h, a) == Times(-h, b)
  {
    if a < b {
      TimesStrict(h, a, b);
    } else if b < a {
      TimesStrict(h, b, a);
    }
    assert Times(-h, a) == -Times(h, a) && Times(-h, b) == -Times(h, b);
  }

  // ---- the penalised score ----

  function HalfPenalty(p: Solver): real { Times(0.5, p.penalty) }

  /** s'w + lambda/2 w'Cw. */
  function PenalisedScore(p: Solver, scores: seq<real>, c: seq<seq<real>>, w: seq<real>): real
    requires |w| == |scores| && SquareOf(c, |scores|)
  {
    Dot(scores, w) + Times(HalfPenalty(p), ModelAveraging.Quadratic(c, w))
  }

  /** C x. */
  function Image(c: seq<seq<real>>, x: seq<real>): (r: seq<real>)
    requires SquareOf(c, |x|)
    ensures |r| == |x| && forall i :: 0 <= i < |x| ==> r[i] == Dot(c[i], x)
  {
    seq(|x|, i requires 0 <= i < |x| => Dot(c[i], x))
  }

  /** The rows of C weighted by the first n entries of x. */
  function RowMix(c: seq<seq<real>>, x: seq<real>, n: nat): (r: seq<real>)
    requires SquareOf(c, |x|) && n <= |x|
    ensures |r| == |x|
  {
    if n == 0 then Const(|x|, 0.0) else Plus(RowMix(c, x, n - 1), Scale(x[n - 1], c[n - 1]))
  }

  lemma {:induction false} RowMixEntry(c: seq<seq<real>>, x: seq<real>, n: nat, j: nat)
    requires SquareOf(c, |x|) && Symmetric(c) && n <= |x| && j < |x|
    ensures RowMix(c, x, n)[j] == Dot(c[j][..n], x[..n])
  {
    hide Times, Symmetric;
    if n > 0 {
      RowMixEntry(c, x, n - 1, j);
      var m := Mul(c[j][..n], x[..n]);
      assert m[..n - 1] == Mul(c[j][..n - 1], x[..n - 1]);
      assert c[n - 1][j] == c[j][n - 1] by { SymmetricAt(c, n - 1, j); }
      TimesSym(x[n - 1], c[j][n - 1]);
    }
  }

  lemma SymmetricAt(c: seq<seq<real>>, i: nat, j: nat)
    requires SquareOf(c, |c|) && Symmetric(c) && i < |c| && j < |c|
    ensures c[i][j] == c[j][i]
  {
  }

  lemma {:induction false} RowMixDot(c: seq<seq<real>>, x: seq<real>, y: seq<real>, n: nat)
    requires SquareOf(c, |x|) && |x| == |y| && n <= |x|
    ensures Dot(RowMix(c, x, n), y) == Dot(x[..n], Image(c, y)[..n])
  {
    hide Times, Mul, Dot, Sum;
    if n == 0 {
      DotZero(RowMix(c, x, 0), y);
      DotEmpty(x[..0], Image(c, y)[..0]);
    } else {
      RowMixDot(c, x, y, n - 1);
      var row := Scale(x[n - 1], c[n - 1]);
      DotAdd(RowMix(c, x, n - 1), row, RowMix(c, x, n), y);
      DotScale(x[n - 1], c[n - 1], row, y);
      assert x[..n][..n - 1] == x[..n - 1] && Image(c, y)[..n][..n - 1] == Image(c, y)[..n - 1];
      DotSplit(x[..n], Image(c, y)[..n]);
    }
  }

  lemma DotZero(x: seq<real>, y: seq<real>)
    requires |x| == |y| && forall i :: 0 <= i < |x| ==> x[i] == 0.0
    ensures Dot(x, y) == 0.0
  {
    SumOfZeros(Mul(x, y));
  }

  lemma DotEmpty(x: seq<real>, y: seq<real>)
    requires |x| == |y| == 0
    ensures Dot(x, y) == 0.0
  {
  }

  lemma DotSplit(x: seq<real>, y: seq<real>)
    requires |x| == |y| >= 1
    ensures var n := |x| - 1; Dot(x, y) == Dot(x[..n], y[..n]) + Times(x[n], y[n])
  {
    var n := |x| - 1;
    assert Mul(x, y)[..n] == Mul(x[..n], y[..n]);
  }

  /** y'Cx == x'Cy. */
  lemma FormSymmetric(c: seq<seq<real>>, x: seq<real>, y: seq<real>)
    requires SquareOf(c, |x|) && Symmetric(c) && |x| == |y|
    ensures Dot(Image(c, x), y) == Dot(x, Image(c, y))
  {
    hide Dot, RowMix;
    forall j | 0 <= j < |x| ensures RowMix(c, x, |x|)[j] == Image(c, x)[j] {
      RowMixEntry(c, x, |x|, j);
      assert c[j][..|x|] == c[j] && x[..|x|] == x;
    }
    assert RowMix(c, x, |x|) == Image(c, x);
    RowMixDot(c, x, y, |x|);
    assert x[..|x|] == x && Image(c, y)[..|x|] == Image(c, y);
  }

  /** The second-order expansion of the penalised score, which is exact. */
  lemma Expansion(p: Solver, scores: seq<real>, c: seq<seq<real>>, w: seq<real>, z: seq<real>)
    requires |w| == |z| == |scores| && SquareOf(c, |scores|) && Symmetric(c)
    ensures var d := Minus(z, w);
      PenalisedScore(p, scores, c, z) == PenalisedScore(p, scores, c, w)
        + Dot(Gradient(p, scores, c, w), d) + Times(HalfPenalty(p), ModelAveraging.Quadratic(c, d))
  {
    hide Times, Dot, Symmetric;
    var d := Minus(z, w);
    var k, h := |w|, HalfPenalty(p);
    var cw, cd, cz := Image(c, w), Image(c, d), Image(c, z);
    forall i | 0 <= i < k ensures cz[i] == cw[i] + cd[i] {
      DotAdd(w, d, z, c[i]);
      DotSym(c[i], w);
      DotSym(c[i], d);
      DotSym(c[i], z);
    }
    var pulled := Scale(p.penalty, cw);
    DotAdd(scores, pulled, Gradient(p, scores, c, w), d);
    DotScale(p.penalty, cw, pulled, d);
    DotAdd(w, d, z, scores);
    DotSym(w, scores);
    DotSym(d, scores);
    DotSym(z, scores);
    DotAdd(w, d, z, cz);
    DotAdd(cw, cd, cz, w);
    DotAdd(cw, cd, cz, d);
    DotSym(w, cz);
    DotSym(d, cz);
    DotSym(w, cw);
    DotSym(d, cd);
    FormSymmetric(c, d, w);
    DotSym(d, cw);
    var a, q := Dot(cw, d), ModelAveraging.Quadratic(c, d);
    Distribute(h, ModelAveraging.Quadratic(c, w), a + a + q);
    Distribute(h, a + a, q);
    HalfTwice(p.penalty, a);
  }

  lemma HalfTwice(k: real, a: real)
    ensures Times(Times(0.5, k), a + a) == Times(k, a)
  {
  }

  ghost predicate MinimisesPenalised(p: Solver, scores: seq<real>, c: seq<seq<real>>, w: seq<real>)
    requires |w| == |scores| && SquareOf(c, |scores|)
  {
    forall z: seq<real> {:trigger PenalisedScore(p, scores, c, z)} :: |z| == |scores| && IsSimplex(z) ==>
      PenalisedScore(p, scores, c, w) <= PenalisedScore(p, scores, c, z)
  }

  /** Moving within the simplex costs nothing against a level gradient. */
  lemma LevelDot(g: seq<real>, w: seq<real>, z: seq<real>)
    requires |g| == |w| == |z| && IsSimplex(w) && IsSimplex(z) && Level(g)
    ensures Dot(g, Minus(z, w)) == 0.0
  {
    hide Sum, Times;
    var d := Minus(z, w);
    SumAdd(w, d, z);
    DotWithConstant(d, g, g[0]);
    DotSym(d, g);
    TimesZero(g[0]);
  }

  lemma LevelMinimises(p: Solver, scores: seq<real>, c: seq<seq<real>>, w: seq<real>)
    requires p.Valid() && |w| == |scores| && SquareOf(c, |scores|) && Symmetric(c) && Semidefinite(c) && IsSimplex(w)
    requires Level(Gradient(p, scores, c, w))
    ensures MinimisesPenalised(p, scores, c, w)
  {
    hide Times, Dot, Sum, PenalisedScore, Gradient, ModelAveraging.Quadratic, Symmetric, Level;
    forall z: seq<real> | |z| == |scores| && IsSimplex(z)
      ensures PenalisedScore(p, scores, c, w) <= PenalisedScore(p, scores, c, z)
    {
      var d := Minus(z, w);
      Expansion(p, scores, c, w, z);
      LevelDot(Gradient(p, scores, c, w), w, z);
      TimesZero(Dot(d, d));
      NonNegProduct(0.5, p.penalty);
      NonNegProduct(HalfPenalty(p), ModelAveraging.Quadratic(c, d));
    }
  }

  /** The weights with t moved from model j to model i. */
  function Shift(w: seq<real>, i: nat, j: nat, t: real): (z: seq<real>)
    requires i < |w| && j < |w|
    ensures |z| == |w|
    ensures forall k :: 0 <= k < |w| ==> z[k] == w[k] + Times(t, Exchange(|w|, i, j)[k])
  {
    Plus(w, Scale(t, Exchange(|w|, i, j)))
  }

  function Exchange(n: nat, i: nat, j: nat): (d: seq<real>)
    ensures |d| == n && forall k :: 0 <= k < n ==> d[k] == Vertex(n, i)[k] - Vertex(n, j)[k]
  {
    Minus(Vertex(n, i), Vertex(n, j))
  }

  lemma ExchangeDot(x: seq<real>, i: nat, j: nat)
    requires i < |x| && j < |x|
    ensures Dot(x, Exchange(|x|, i, j)) == x[i] - x[j]
    ensures Sum(Exchange(|x|, i, j)) == 0.0
  {
    hide Sum, Times, Dot;
    var d, e := Exchange(|x|, i, j), Vertex(|x|, j);
    DotAdd(d, e, Vertex(|x|, i), x);
    DotSym(x, d);
    DotSym(x, e);
    DotSym(x, Vertex(|x|, i));
    VertexDot(x, i);
    VertexDot(x, j);
    VertexSimplex(|x|, i);
    VertexSimplex(|x|, j);
    SumAdd(d, e, Vertex(|x|, i));
  }

  lemma ShiftSimplex(w: seq<real>, i: nat, j: nat, t: real)
    requires IsSimplex(w) && i < |w| && j < |w| && i != j && 0.0 <= t <= w[j]
    ensures IsSimplex(Shift(w, i, j, t))
  {
    hide Sum, Times;
    var e := Exchange(|w|, i, j);
    ExchangeDot(w, i, j);
    SumScale(t, e, Scale(t, e));
    SumAdd(w, Scale(t, e), Shift(w, i, j, t));
    TimesZero(t);
    forall k | 0 <= k < |w| ensures Shift(w, i, j, t)[k] >= 0.0 {
      TimesOne(t);
      assert Times(t, -1.0) == -t by { MinusOne(t); }
    }
  }

  lemma MinusOne(t: real)
    ensures Times(t, -1.0) == -t
  {
  }

  /** Where the gradient is not level, moving weight down the slope lowers the score. */
  lemma SlopeImproves(p: Solver, scores: seq<real>, c: seq<seq<real>>, w: seq<real>, i: nat, j: nat)
    requires SquareOf(c, |scores|) && Symmetric(c) && Interior(w, |scores|) && i < |w| && j < |w|
    requires Gradient(p, scores, c, w)[i] < Gradient(p, scores, c, w)[j]
    ensures !MinimisesPenalised(p, scores, c, w)
  {
    hide Times, Over, Dot, Sum, PenalisedScore, Gradient, ModelAveraging.Quadratic, Symmetric, Shift, Exchange;
    var g, e := Gradient(p, scores, c, w), Exchange(|w|, i, j);
    var q := Times(HalfPenalty(p), ModelAveraging.Quadratic(c, e));
    var n := g[j] - g[i];
    var t := SmallStep(n, q, w[j]);
    var z := Shift(w, i, j, t);
    ShiftSimplex(w, i, j, t);
    ShiftMove(w, i, j, t);
    Expansion(p, scores, c, w, z);
    var d := Minus(z, w);
    DotScale(t, e, d, g);
    DotSym(d, g);
    DotSym(e, g);
    ExchangeDot(g, i, j);
    ScaledQuadratic(c, e, t, d);
    var h, v := HalfPenalty(p), ModelAveraging.Quadratic(c, e);
    FactorsSwap(h, t, v);
    Distribute(t, -n, Times(t, q));
    NegativeProduct(t, -n + Times(t, q));
    assert PenalisedScore(p, scores, c, z) < PenalisedScore(p, scores, c, w);
  }

  lemma ShiftMove(w: seq<real>, i: nat, j: nat, t: real)
    requires i < |w| && j < |w|
    ensures Minus(Shift(w, i, j, t), w) == Scale(t, Exchange(|w|, i, j))
  {
    hide Times;
  }

  lemma NegativeProduct(t: real, x: real)
    requires t > 0.0 && x < 0.0
    ensures Times(t, x) < 0.0
  {
  }

  lemma FactorsSwap(h: real, t: real, v: real)
    ensures Times(h, Times(t, Times(t, v))) == Times(t, Times(t, Times(h, v)))
  {
  }

  /** A positive step of at most limit for which the linear gain beats the quadratic loss. */
  function SmallStep(n: real, q: real, limit: real): (t: real)
    requires n > 0.0 && limit > 0.0
    ensures 0.0 < t <= limit && Times(t, q) < n
  {
    var b := 1.0 + Abs(q);
    var t := Min(limit, Over(n, b));
    Quotient(n, b);
    OverSign(n, b);
    TimesMonotone(b, t, Over(n, b));
    assert Times(b, t) == t + Times(Abs(q), t);
    TimesMonotone(t, q, Abs(q));
    TimesSym(t, Abs(q));
    t
  }

  lemma ScaledQuadratic(c: seq<seq<real>>, e: seq<real>, t: real, d: seq<real>)
    requires SquareOf(c, |e|) && d == Scale(t, e)
    ensures ModelAveraging.Quadratic(c, d) == Times(t, Times(t, ModelAveraging.Quadratic(c, e)))
  {
    hide Times, Dot;
    var ce, cd := Image(c, e), Image(c, d);
    forall i | 0 <= i < |e| ensures cd[i] == Times(t, ce[i]) {
      DotScale(t, e, d, c[i]);
      DotSym(c[i], d);
      DotSym(c[i], e);
    }
    DotScale(t, e, d, cd);
    DotScale(t, ce, cd, e);
    DotSym(e, cd);
    DotSym(e, ce);
  }

  /** For a semidefinite correlation matrix an interior weighting is left in place exactly
      when no weighting at all has a smaller penalised score: the step knows no entropy. */
  lemma FixedIffMinimal(exp: real -> real, p: Solver, scores: seq<real>, c: seq<seq<real>>, w: seq<real>)
    requires Posed(exp, p, scores, c) && Interior(w, |scores|) && StrictlyIncreasing(exp)
    requires Symmetric(c) && Semidefinite(c)
    ensures MirrorStep(exp, p, scores, c, w) == w <==> MinimisesPenalised(p, scores, c, w)
  {
    hide MirrorStep, Gradient, MinimisesPenalised, Symmetric, Semidefinite, IsSimplex, Positive, StrictlyIncreasing,
         AlwaysPositive;
    FixedIffLevel(exp, p, scores, c, w);
    var g := Gradient(p, scores, c, w);
    if Level(g) {
      LevelMinimises(p, scores, c, w);
    } else {
      var i, j :| 0 <= i < |g| && 0 <= j < |g| && g[i] != g[j];
      if g[i] < g[j] {
        SlopeImproves(p, scores, c, w, i, j);
      } else {
        SlopeImproves(p, scores, c, w, j, i);
      }
    }
  }

  // ---- the documented objective ----

  /** The tangent of x log x lies strictly below it elsewhere, which makes log increasing. */
  ghost predicate Logarithm(log: real -> real) {
    forall x, y :: x > 0.0 && y > 0.0 && x != y ==> Times(y, log(y) - log(x)) > y - x
  }

  /** x log x, which is zero at zero. */
  function EntropyTerm(log: real -> real, x: real): real { if x == 0.0 then 0.0 else Times(x, log(x)) }

  function NegativeEntropy(log: real -> real, w: seq<real>): real { Sum(EntropyTerms(log, w)) }

  function EntropyTerms(log: real -> real, w: seq<real>): (r: seq<real>)
    ensures |r| == |w| && forall i :: 0 <= i < |w| ==> r[i] == EntropyTerm(log, w[i])
  {
    seq(|w|, i requires 0 <= i < |w| => EntropyTerm(log, w[i]))
  }

  /** s'w + lambda/2 w'Cw - tau * H(w), as the solver is documented to minimise. */
  function Documented(log: real -> real, p: Solver, scores: seq<real>, c: seq<seq<real>>, w: seq<real>): real
    requires |w| == |scores| && SquareOf(c, |scores|)
  {
    PenalisedScore(p, scores, c, w) + Times(p.temperature, NegativeEntropy(log, w))
  }

  /** Every other weighting is strictly worse by the documented objective. */
  ghost predicate OnlyOptimum(log: real -> real, p: Solver, scores: seq<real>, c: seq<seq<real>>, w: seq<real>)
    requires |w| == |scores| && SquareOf(c, |scores|)
  {
    forall z: seq<real> {:trigger Documented(log, p, scores, c, z)} :: |z| == |scores| && IsSimplex(z) && z != w ==>
      Documented(log, p, scores, c, w) < Documented(log, p, scores, c, z)
  }

  /** The gradient of the documented objective, up to a common constant. */
  function EntropicGradient(log: real -> real, p: Solver, scores: seq<real>, c: seq<seq<real>>,
                            w: seq<real>): (g: seq<real>)
    requires |w| == |scores| && SquareOf(c, |scores|)
    ensures |g| == |w|
    ensures forall i :: 0 <= i < |w| ==> g[i] == Gradient(p, scores, c, w)[i] + Times(p.temperature, log(w[i]))
  {
    seq(|w|, i requires 0 <= i < |w| => Gradient(p, scores, c, w)[i] + Times(p.temperature, log(w[i])))
  }

  lemma TangentTerm(log: real -> real, x: real, y: real)
    requires Logarithm(log) && x > 0.0 && y >= 0.0
    ensures EntropyTerm(log, y) >= EntropyTerm(log, x) + Times(log(x), y - x) + (y - x)
    ensures y != x ==> EntropyTerm(log, y) > EntropyTerm(log, x) + Times(log(x), y - x) + (y - x)
  {
    assert Times(log(x), y - x) == Times(y, log(x)) - Times(x, log(x));
    if y > 0.0 {
      Distribute(y, log(y) - log(x), log(x));
    }
  }

  /** Away from the point of contact the negative entropy lies strictly above its tangent. */
  lemma TangentSum(log: real -> real, w: seq<real>, z: seq<real>)
    requires Logarithm(log) && |w| == |z| && Positive(w) && IsSimplex(w) && IsSimplex(z) && z != w
    ensures var slope := LogOf(log, w);
      NegativeEntropy(log, z) > NegativeEntropy(log, w) + Dot(slope, Minus(z, w))
  {
    hide Times, Sum, EntropyTerm, Logarithm;
    var d, slope := Minus(z, w), LogOf(log, w);
    var terms := EntropyTerms(log, w);
    var tangent := Plus(Plus(terms, Mul(slope, d)), d);
    forall i | 0 <= i < |w|
      ensures tangent[i] <= EntropyTerm(log, z[i]) && (z[i] != w[i] ==> tangent[i] < EntropyTerm(log, z[i]))
    {
      TangentTerm(log, w[i], z[i]);
    }
    SumAdd(w, d, z);
    SumAdd(terms, Mul(slope, d), Plus(terms, Mul(slope, d)));
    SumAdd(Plus(terms, Mul(slope, d)), d, tangent);
    var i :| 0 <= i < |w| && z[i] != w[i];
    SumLeStrict(tangent, EntropyTerms(log, z), i);
  }

  function LogOf(log: real -> real, w: seq<real>): (r: seq<real>)
    ensures |r| == |w| && forall i :: 0 <= i < |w| ==> r[i] == log(w[i])
  {
    seq(|w|, i requires 0 <= i < |w| => log(w[i]))
  }

  /** A weighting with a level entropic gradient is the one documented optimum. */
  lemma EntropicOptimum(log: real -> real, p: Solver, scores: seq<real>, c: seq<seq<real>>, w: seq<real>)
    requires Logarithm(log) && p.Valid() && SquareOf(c, |scores|) && Interior(w, |scores|)
    requires Symmetric(c) && Semidefinite(c) && Level(EntropicGradient(log, p, scores, c, w))
    ensures OnlyOptimum(log, p, scores, c, w)
  {
    hide Logarithm, Symmetric, Semidefinite, Level, Documented, Positive, IsSimplex;
    forall z: seq<real> | |z| == |scores| && IsSimplex(z) && z != w
      ensures Documented(log, p, scores, c, w) < Documented(log, p, scores, c, z)
    {
      EntropicBeats(log, p, scores, c, w, z);
    }
  }

  lemma EntropicBeats(log: real -> real, p: Solver, scores: seq<real>, c: seq<seq<real>>, w: seq<real>, z: seq<real>)
    requires Logarithm(log) && p.Valid() && SquareOf(c, |scores|) && Interior(w, |scores|)
    requires Symmetric(c) && Semidefinite(c) && Level(EntropicGradient(log, p, scores, c, w))
    requires |z| == |scores| && IsSimplex(z) && z != w
    ensures Documented(log, p, scores, c, w) < Documented(log, p, scores, c, z)
  {
    hide Times, Dot, Sum, PenalisedScore, Gradient, ModelAveraging.Quadratic, Symmetric, NegativeEntropy, Level,
         Logarithm;
    var d, tau := Minus(z, w), p.temperature;
    var g, slope := Gradient(p, scores, c, w), LogOf(log, w);
    Expansion(p, scores, c, w, z);
    TimesZero(Dot(d, d));
    NonNegProduct(0.5, p.penalty);
    NonNegProduct(HalfPenalty(p), ModelAveraging.Quadratic(c, d));
    LevelDot(EntropicGradient(log, p, scores, c, w), w, z);
    DotAdd(g, Scale(tau, slope), EntropicGradient(log, p, scores, c, w), d);
    DotScale(tau, slope, Scale(tau, slope), d);
    TangentSum(log, w, z);
    var n, m := NegativeEntropy(log, w), NegativeEntropy(log, z);
    Distribute(tau, n, Dot(slope, d));
    TimesStrict(tau, n + Dot(slope, d), m);
  }

  /** The documented optimum stays in place only when it is the uniform weighting. */
  lemma EntropicOptimumFixedIffUniform(exp: real -> real, log: real -> real, p: Solver, scores: seq<real>,
                                       c: seq<seq<real>>, w: seq<real>)
    requires Posed(exp, p, scores, c) && Interior(w, |scores|) && StrictlyIncreasing(exp) && Logarithm(log)
    requires Level(EntropicGradient(log, p, scores, c, w))
    ensures MirrorStep(exp, p, scores, c, w) == w <==> w == Uniform(|w|)
  {
    hide MirrorStep, Gradient, Sum, Times, Over, StrictlyIncreasing, AlwaysPositive;
    FixedIffLevel(exp, p, scores, c, w);
    var g, k, tau := Gradient(p, scores, c, w), |w|, p.temperature;
    forall i, j | 0 <= i < k && 0 <= j < k ensures w[i] == w[j] <==> g[i] == g[j] {
      assert w[i] > 0.0 && w[j] > 0.0;
      LogOrder(log, tau, w[i], w[j]);
      LogOrder(log, tau, w[j], w[i]);
      assert EntropicGradient(log, p, scores, c, w)[i] == EntropicGradient(log, p, scores, c, w)[j];
    }
    assert Level(g) <==> Level(w);
    LevelIsUniform(w);
  }

  /** In terms of the problem alone: exactly when the gradient at the uniform weighting is the
      same for every model. */
  lemma OptimumFixedIff(exp: real -> real, log: real -> real, p: Solver, scores: seq<real>, c: seq<seq<real>>,
                        w: seq<real>)
    requires Posed(exp, p, scores, c) && Interior(w, |scores|) && StrictlyIncreasing(exp) && Logarithm(log)
    requires Symmetric(c) && Semidefinite(c) && Level(EntropicGradient(log, p, scores, c, w))
    ensures MirrorStep(exp, p, scores, c, w) == w <==> Level(Gradient(p, scores, c, Uniform(|scores|)))
  {
    hide MirrorStep, Gradient, Sum, Times, Over, StrictlyIncreasing, AlwaysPositive, Symmetric, Semidefinite,
         Documented, Logarithm;
    EntropicOptimumFixedIffUniform(exp, log, p, scores, c, w);
    FixedIffLevel(exp, p, scores, c, w);
    var u := Uniform(|scores|);
    UniformSimplex(|scores|);
    if Level(Gradient(p, scores, c, u)) {
      LevelIsUniform(u);
      assert Level(EntropicGradient(log, p, scores, c, u));
      EntropicOptimum(log, p, scores, c, u);
      EntropicOptimum(log, p, scores, c, w);
      OnlyOne(log, p, scores, c, u, w);
    }
  }

  lemma OnlyOne(log: real -> real, p: Solver, scores: seq<real>, c: seq<seq<real>>, u: seq<real>, w: seq<real>)
    requires |u| == |w| == |scores| && SquareOf(c, |scores|) && IsSimplex(u) && IsSimplex(w)
    requires OnlyOptimum(log, p, scores, c, u) && OnlyOptimum(log, p, scores, c, w)
    ensures u == w
  {
    hide Documented, IsSimplex;
    var here, there := Documented(log, p, scores, c, u), Documented(log, p, scores, c, w);
    assert u != w ==> here < there && there < here;
  }

  lemma LogOrder(log: real -> real, tau: real, x: real, y: real)
    requires Logarithm(log) && tau > 0.0 && x > 0.0 && y > 0.0
    ensures x < y ==> Times(tau, log(x)) < Times(tau, log(y))
  {
    hide Times;
    if x < y {
      assert Times(y, log(y) - log(x)) > 0.0;
      if log(y) <= log(x) {
        TimesMonotone(y, log(y) - log(x), 0.0);
        TimesZero(y);
      } else {
        TimesStrict(tau, log(x), log(y));
      }
    }
  }

  lemma LevelIsUniform(w: seq<real>)
    requires IsSimplex(w)
    ensures Level(w) <==> w == Uniform(|w|)
  {
    hide Sum, Times, Over;
    if Level(w) {
      var k := |w| as real;
      SumConst(|w|, w[0]);
      assert w == Const(|w|, w[0]);
      Quotient(1.0, k);
      SameFactor(k, w[0], Over(1.0, k));
      NegatedTwice(k, w[0], Over(1.0, k));
    }
  }

  lemma NegatedTwice(k: real, a: real, b: real)
    ensures Times(k, a) == Times(k, b) <==> Times(-k, a) == Times(-k, b)
  {
  }

  /** Scores for which w is stationary: minus the pull of the penalty and of the entropy. */
  function ScoresFor(log: real -> real, p: Solver, c: seq<seq<real>>, w: seq<real>): (r: seq<real>)
    requires SquareOf(c, |w|)
    ensures |r| == |w|
    ensures forall i :: 0 <= i < |w| ==> r[i] == -Times(p.penalty, Dot(c[i], w)) - Times(p.temperature, log(w[i]))
  {
    seq(|w|, i requires 0 <= i < |w| => -Times(p.penalty, Dot(c[i], w)) - Times(p.temperature, log(w[i])))
  }

  /** Every weighting is the documented optimum of some scores, and unless it is uniform
      a mirror step moves away from it. */
  lemma EveryOptimumMoves(exp: real -> real, log: real -> real, p: Solver, scores: seq<real>, c: seq<seq<real>>,
                          w: seq<real>)
    requires Posed(exp, p, scores, c) && Interior(w, |scores|) && StrictlyIncreasing(exp) && Logarithm(log)
    requires Symmetric(c) && Semidefinite(c) && scores == ScoresFor(log, p, c, w)
    ensures OnlyOptimum(log, p, scores, c, w)
    ensures MirrorStep(exp, p, scores, c, w) == w <==> w == Uniform(|w|)
  {
    hide MirrorStep, Times, Dot, OnlyOptimum, Logarithm, Symmetric, Semidefinite, StrictlyIncreasing, Uniform, Sum;
    var g := EntropicGradient(log, p, scores, c, w);
    assert forall i :: 0 <= i < |g| ==> g[i] == 0.0;
    EntropicOptimumFixedIffUniform(exp, log, p, scores, c, w);
    EntropicOptimum(log, p, scores, c, w);
  }
}
