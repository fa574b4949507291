/** What one bar of the online ensemble means, told without its formulas: the odds of the
    posterior rows, the scores as negative log likelihoods, and the laws of every rate. */
module BarLaws {
  import opened Results
  import opened Vectors
  import opened Simplex
  import opened MirrorDescent
  import opened MirrorOptimum
  import opened ModelAveraging
  import opened EnsembleEngine

  // ---- softmax ----

  /** The odds of a softmax are those of the exponentials of its arguments. */
  lemma SoftmaxOdds(exp: real -> real, x: seq<real>, i: nat, j: nat)
    requires AlwaysPositive(exp) && Exponential(exp) && i < |x| && j < |x|
    ensures Times(Softmax(exp, x)[i], exp(x[j])) == Times(Softmax(exp, x)[j], exp(x[i]))
  {
    hide Sum, Times, Over, Shifted, MaxOf, Positive, IsSimplex;
    ExponentialsPositive(exp, x);
    var e := Exponentials(exp, x);
    var m := MaxOf(x);
    assert exp(Shifted(x)[i] + m) == Times(e[i], exp(m)) && Shifted(x)[i] + m == x[i];
    assert exp(Shifted(x)[j] + m) == Times(e[j], exp(m)) && Shifted(x)[j] + m == x[j];
    CrossQuotients(e[i], e[j], exp(m), Sum(e));
  }

  lemma CrossQuotients(a: real, b: real, m: real, z: real)
    requires z > 0.0
    ensures Times(Over(a, z), Times(b, m)) == Times(Over(b, z), Times(a, m))
  {
    Quotient(a, z);
    Quotient(b, z);
    var p, q := Over(a, z), Over(b, z);
    assert p * (b * m) == p * ((q * z) * m) == q * ((p * z) * m);
  }

  /** Strictly larger arguments get strictly larger shares. */
  lemma SoftmaxStrict(exp: real -> real, x: seq<real>, i: nat, j: nat)
    requires AlwaysPositive(exp) && StrictlyIncreasing(exp) && i < |x| && j < |x| && x[i] > x[j]
    ensures Softmax(exp, x)[i] > Softmax(exp, x)[j]
  {
    hide Sum, Times, Over, MaxOf, Positive, IsSimplex;
    ExponentialsPositive(exp, x);
    var e := Exponentials(exp, x);
    assert Shifted(x)[j] < Shifted(x)[i];
    OverStrict(e[j], e[i], Sum(e));
  }

  lemma OverStrict(a: real, b: real, z: real)
    requires z > 0.0 && a < b
    ensures Over(a, z) < Over(b, z)
  {
  }

  // ---- posterior rows ----

  /** exp and log as the inverse pair they are, on the positive numbers. */
  ghost predicate Inverse(f: Functions) {
    Exponential(f.exp) && forall x :: x > 0.0 ==> f.exp(f.log(x)) == x
  }

  /** Tempering raises the odds of a row to the power alpha, written exp(alpha * log); at
      alpha 1 it keeps them. */
  lemma TemperedOdds(f: Functions, row: seq<real>, alpha: real, i: nat, j: nat)
    requires f.Valid() && Inverse(f) && i < |row| && j < |row| && row[i] >= 0.0 && row[j] >= 0.0
    ensures var t, a, b := Tempered(f, row, alpha),
                           row[i] + 0.000000000000000000000000000001, row[j] + 0.000000000000000000000000000001;
      && Times(t[i], f.exp(Times(alpha, f.log(b)))) == Times(t[j], f.exp(Times(alpha, f.log(a))))
      && (alpha == 1.0 ==> Times(t[i], b) == Times(t[j], a))
  {
    hide Softmax, Normalise, Times, Sum;
    var x := seq(|row|, k requires 0 <= k < |row| => Times(alpha, f.log(row[k] + TINY)));
    SoftmaxOdds(f.exp, x, i, j);
    NormaliseSimplex(Softmax(f.exp, x));
    if alpha == 1.0 {
      TimesOne(f.log(row[i] + TINY));
      TimesOne(f.log(row[j] + TINY));
    }
  }

  /** The likelihood law: above the floor the odds of two models are their odds before times
      exp(-prob * (loss_i - loss_j)), prob being the probability of the regime. */
  lemma NextRowOdds(f: Functions, row: seq<real>, prob: real, losses: seq<real>, e: real, i: nat, j: nat)
    requires f.Valid() && Inverse(f) && |row| == |losses| && i < |row| && j < |row|
    requires e > 0.0 && Times(|row| as real, e) < 1.0
    ensures var n, a, b := NextRow(f, row, prob, losses, e),
                           Max(row[i], 0.000000000000000000000000000001), Max(row[j], 0.000000000000000000000000000001);
      Times(n[i] - e, b) == Times(Times(n[j] - e, a), f.exp(-Times(prob, losses[i] - losses[j])))
  {
    hide Softmax, Laplace, Times, Sum, IsSimplex, Mix, Uniform, Normalise;
    var x := seq(|row|, k requires 0 <= k < |row| => f.log(Max(row[k], TINY)) - Times(prob, losses[k]));
    var r := Softmax(f.exp, x);
    LaplaceMixesUniform(e, r);
    SoftmaxOdds(f.exp, x, i, j);
    var keep := 1.0 - Times(|row| as real, e);
    var a, b := Max(row[i], TINY), Max(row[j], TINY);
    var la, lb := f.log(a), f.log(b);
    var gap := Times(prob, losses[i] - losses[j]);
    LossGap(prob, losses[i], losses[j]);
    assert x[j] == (lb + x[i]) - la + gap;
    ExpOfDifference(f, x[i], la, lb, x[j], gap);
    assert f.exp(la) == a && f.exp(lb) == b;
    OddsCancel(keep, r[i], r[j], a, b, f.exp(x[i]), f.exp(x[j]), f.exp(-gap));
  }

  lemma LossGap(prob: real, x: real, y: real)
    ensures Times(prob, x - y) == Times(prob, x) - Times(prob, y)
  {
  }

  lemma ExpOfDifference(f: Functions, xi: real, la: real, lb: real, xj: real, gap: real)
    requires f.Valid() && Exponential(f.exp) && xj == (lb + xi) - la + gap
    ensures Times(Times(f.exp(xj), f.exp(la)), f.exp(-gap)) == Times(f.exp(lb), f.exp(xi))
  {
    hide Times;
    assert f.exp(xj + la) == Times(f.exp(xj), f.exp(la));
    assert f.exp((xj + la) + -gap) == Times(f.exp(xj + la), f.exp(-gap));
    assert (xj + la) + -gap == lb + xi;
    assert f.exp(lb + xi) == Times(f.exp(lb), f.exp(xi));
  }

  lemma OddsCancel(keep: real, ri: real, rj: real, a: real, b: real, ei: real, ej: real, g: real)
    requires Times(ri, ej) == Times(rj, ei) && Times(Times(ej, a), g) == Times(b, ei) && ei > 0.0
    ensures Times(Times(keep, ri), b) == Times(Times(Times(keep, rj), a), g)
  {
    assert (ri * b) * ei == ri * ((ej * a) * g) == (ri * ej) * (a * g) == ((rj * a) * g) * ei;
    CancelFactor(ri * b, (rj * a) * g, ei);
    assert (keep * ri) * b == keep * (ri * b) == keep * ((rj * a) * g) == ((keep * rj) * a) * g;
  }

  lemma CancelFactor(x: real, y: real, e: real)
    requires e > 0.0 && x * e == y * e
    ensures x == y
  {
    assert (x - y) * e == 0.0;
  }

  /** Of two equally likely models the one that lost less ends strictly likelier, in every
      regime that has any probability. */
  lemma NextRowStrict(f: Functions, row: seq<real>, prob: real, losses: seq<real>, e: real, i: nat, j: nat)
    requires f.Valid() && StrictlyIncreasing(f.exp) && prob > 0.0
    requires |row| == |losses| && i < |row| && j < |row| && e > 0.0 && Times(|row| as real, e) < 1.0
    requires row[i] == row[j] && losses[i] < losses[j]
    ensures NextRow(f, row, prob, losses, e)[i] > NextRow(f, row, prob, losses, e)[j]
  {
    hide Softmax, Laplace, Times, Sum, IsSimplex, Mix, Uniform, Normalise;
    var x := seq(|row|, k requires 0 <= k < |row| => f.log(Max(row[k], TINY)) - Times(prob, losses[k]));
    TimesStrict(prob, losses[i], losses[j]);
    SoftmaxStrict(f.exp, x, i, j);
    var r := Softmax(f.exp, x);
    LaplaceMixesUniform(e, r);
    TimesStrict(1.0 - Times(|row| as real, e), r[j], r[i]);
  }

  /** Above the floor e the odds of i and j in next are those in t times the likelihood ratio
      under the probability prob. */
  ghost predicate Learned(f: Functions, t: seq<real>, next: seq<real>, prob: real, losses: seq<real>, e: real, i: nat,
                          j: nat)
  {
    && i < |t| == |next| == |losses| && j < |t|
    && var a, b := Max(t[i], 0.000000000000000000000000000001), Max(t[j], 0.000000000000000000000000000001);
       Times(next[i] - e, b) == Times(Times(next[j] - e, a), f.exp(-Times(prob, losses[i] - losses[j])))
  }

  /** In regime r the bar's next posterior has learned from its losses, weighted by that
      regime's probability, starting from the tempered old posterior. */
  ghost predicate PosteriorLearned(f: Functions, cfg: Config, s: State, b: Bar, r: nat, i: nat, j: nat)
    requires Ready(f, cfg, s, b) && r < 3
  {
    hide *;
    ReadyFacts(f, cfg, s, b);
    var next := Advanced(f, cfg, s, b).posteriors;
    |next| == 3
    && Learned(f, Tempered(f, s.posteriors[r], Alpha(cfg, s.meanVol, b.vol)), next[r], b.regimes[r],
               BarLosses(f, cfg, b), Floor(cfg.solver.floor, |b.predictions|), i, j)
  }

  /** So it is over the state every bar leaves behind. */
  lemma PosteriorsLearn(f: Functions, cfg: Config, s: State, b: Bar, r: nat, i: nat, j: nat)
    requires Ready(f, cfg, s, b) && Inverse(f) && r < 3 && i < |b.predictions| && j < |b.predictions|
    ensures PosteriorLearned(f, cfg, s, b, r, i, j)
  {
    hide IsSimplex, NextWeights, BarLosses, Smoothed, Floor, StateValid, Plus, EffectiveModels, NextRow, Tempered,
         Alpha, Times, Inverse, Acceptable, Config.Valid, Functions.Valid;
    ReadyFacts(f, cfg, s, b);
    NextWeightsFloored(f, cfg, s, b);
    NextRowOdds(f, TemperedRows(f, cfg, s, b)[r], b.regimes[r], BarLosses(f, cfg, b),
                Floor(cfg.solver.floor, |b.predictions|), i, j);
  }

  // ---- scores ----

  /** A score is the negative logarithm of prior times likelihood. */
  lemma ScoreIsLogPosterior(f: Functions, losses: seq<real>, prior: seq<real>, i: nat)
    requires f.Valid() && Inverse(f) && |losses| == |prior| && i < |prior|
    ensures Times(f.exp(Scores(f, losses, prior)[i]), Max(prior[i], 0.000000000000000000000000000001))
         == f.exp(losses[i])
  {
    hide Times;
    var l := f.log(Max(prior[i], TINY));
    assert f.exp(Scores(f, losses, prior)[i] + l) == Times(f.exp(Scores(f, losses, prior)[i]), f.exp(l));
  }

  /** What a forecast costs: its squared error, and the penalty on the product of outcome and
      forecast when the two have opposite signs. */
  lemma BarLossLaw(f: Functions, cfg: Config, b: Bar, i: nat)
    requires f.Valid() && cfg.Valid() && Acceptable(b, |b.predictions|) && i < |b.predictions|
    ensures var y := Standardised(f, b.predictions, b.horizons)[i];
      BarLosses(f, cfg, b)[i]
      == Times(b.realized - y, b.realized - y)
         + if Times(b.realized, y) < 0.0 then Times(cfg.downside, -Times(b.realized, y)) else 0.0
  {
    hide Times, Standardised;
    var y := Standardised(f, b.predictions, b.horizons)[i];
    Negated(b.realized, y);
    SquarePositive(b.realized - y);
    TimesZero(cfg.downside);
    if Times(b.realized, y) < 0.0 {
      NonNegProduct(cfg.downside, -Times(b.realized, y));
    }
  }

  /** The score of model i combines its loss with its prior: the tempered posteriors blended by
      the forward regime probabilities. */
  ghost predicate ScoreCombines(f: Functions, cfg: Config, s: State, b: Bar, i: nat)
    requires Ready(f, cfg, s, b) && i < |b.predictions|
  {
    hide *;
    ReadyFacts(f, cfg, s, b);
    var rows, p := TemperedRows(f, cfg, s, b), ForwardPrior(b.regimes, b.transition);
    RowsFit(rows, |b.predictions|);
    var prior := Blended(p, rows, |b.predictions|)[i];
    Times(f.exp(BarScores(f, cfg, s, b)[i]), Max(prior, 0.000000000000000000000000000001))
    == f.exp(BarLosses(f, cfg, b)[i])
  }

  lemma RowsFit(rows: seq<seq<real>>, k: nat)
    requires Rows(rows, k)
    ensures |rows| == 3 && forall j :: 0 <= j < 3 ==> |rows[j]| == k
  {
  }

  lemma ScoresCombine(f: Functions, cfg: Config, s: State, b: Bar, i: nat)
    requires Ready(f, cfg, s, b) && Inverse(f) && i < |b.predictions|
    ensures ScoreCombines(f, cfg, s, b, i)
  {
    hide IsSimplex, BarLosses, Floor, StateValid, TemperedRows, ForwardPrior, Times, Inverse, Acceptable, Config.Valid,
         Functions.Valid, Scores, Blended, Clipped, Normalise;
    ReadyFacts(f, cfg, s, b);
    var rows, p := TemperedRows(f, cfg, s, b), ForwardPrior(b.regimes, b.transition);
    BlendedIsInterior(p, rows, |b.predictions|);
    NormaliseSimplex(Clipped(Blended(p, rows, |b.predictions|)));
    ScoreIsLogPosterior(f, BarLosses(f, cfg, b), CompositePrior(p, rows, |b.predictions|), i);
  }

  // ---- forecasts and regimes ----

  /** A standardised forecast times the square root of its horizon is the forecast. */
  lemma StandardisedUndone(f: Functions, predictions: seq<real>, horizons: Option<seq<real>>, i: nat)
    requires f.Valid() && HorizonsFit(horizons, |predictions|) && i < |predictions|
    ensures horizons.None? ==> Standardised(f, predictions, horizons)[i] == predictions[i]
    ensures horizons.Some? ==>
      |horizons.value| == |predictions|
      && Times(Standardised(f, predictions, horizons)[i], f.sqrt(horizons.value[i])) == predictions[i]
  {
    hide Times, Over;
    if horizons.Some? {
      assert horizons.value[i] >= 1.0;
      Quotient(predictions[i], f.sqrt(horizons.value[i]));
    }
  }

  /** From a certain regime the forward prior is that regime's row of the transition matrix,
      and the blend of the rows is that regime's row. */
  lemma CertainRegime(m: seq<seq<real>>, rows: seq<seq<real>>, k: nat, r: nat)
    requires |m| == 3 && (forall i :: 0 <= i < 3 ==> |m[i]| == 3 && IsSimplex(m[i])) && Rows(rows, k) && r < 3
    ensures Distribution(Vertex(3, r), 3) && TransitionMatrix(m) && ForwardPrior(Vertex(3, r), m) == m[r]
    ensures IsSimplex(Vertex(3, r)) && CompositePrior(Vertex(3, r), rows, k) == rows[r]
  {
    hide Sum, Times, Clipped, Normalise, Positive, ForwardPrior;
    var p := Vertex(3, r);
    VertexSimplex(3, r);
    ForwardPriorIsProjection(p, m);
    forall j | 0 <= j < 3 ensures Project(p, m)[j] == m[r][j] {
      ZeroOne(m[0][j]);
      ZeroOne(m[1][j]);
      ZeroOne(m[2][j]);
    }
    assert Project(p, m) == m[r];
    BlendedIsInterior(p, rows, k);
    NormaliseSimplex(Clipped(Blended(p, rows, k)));
    forall i | 0 <= i < k ensures Blended(p, rows, k)[i] == rows[r][i] {
      ZeroOne(rows[0][i]);
      ZeroOne(rows[1][i]);
      ZeroOne(rows[2][i]);
    }
    assert Blended(p, rows, k) == rows[r];
  }

  lemma ZeroOne(x: real)
    ensures Times(0.0, x) == 0.0 && Times(1.0, x) == x
  {
  }

  /** For inputs that only nearly sum to one the forward prior keeps the odds of the projection,
      clipped into [0, 1]. */
  lemma ForwardOdds(p: seq<real>, m: seq<seq<real>>, i: nat, j: nat)
    requires Distribution(p, 3) && TransitionMatrix(m) && i < 3 && j < 3
    ensures |p| == 3 && forall r :: 0 <= r < 3 ==> |m[r]| == 3
    ensures var a := Times(p[0], m[0][i]) + Times(p[1], m[1][i]) + Times(p[2], m[2][i]);
      var b := Times(p[0], m[0][j]) + Times(p[1], m[1][j]) + Times(p[2], m[2][j]);
      Times(ForwardPrior(p, m)[i], Clip(b, 0.0, 1.0)) == Times(ForwardPrior(p, m)[j], Clip(a, 0.0, 1.0))
  {
    hide Sum, Times, Over;
    ProjectionSurvives(p, m);
    var q := Clipped(Project(p, m));
    OverTimes(q[i], Sum(q), q[j]);
    OverTimes(q[j], Sum(q), q[i]);
    TimesSym(q[i], q[j]);
  }

  // ---- rates ----

  /** Inside its bounds the memory factor falls by the sensitivity times the relative excess of
      the volatility; a factor at a bound would have fallen at least that far beyond it. */
  lemma AlphaSlope(cfg: Config, mean: real, vol: real)
    requires cfg.Valid() && mean > 0.0
    ensures var a := Alpha(cfg, mean, vol);
      && (cfg.lowest < a < cfg.highest ==> Times(mean, cfg.base - a) == Times(cfg.sensitivity, vol - mean))
      && (a == cfg.lowest ==> Times(mean, cfg.base - a) <= Times(cfg.sensitivity, vol - mean))
      && (a == cfg.highest ==> Times(mean, cfg.base - a) >= Times(cfg.sensitivity, vol - mean))
  {
    hide Times, Over;
    var q := Over(vol - mean, mean);
    Quotient(vol - mean, mean);
    var drop := Times(cfg.sensitivity, q);
    TimesAssoc(mean, cfg.sensitivity, q);
    TimesAssoc(cfg.sensitivity, mean, q);
    TimesSym(mean, cfg.sensitivity);
    assert Times(mean, drop) == Times(cfg.sensitivity, vol - mean);
    var a := Alpha(cfg, mean, vol);
    if cfg.base - a <= drop {
      TimesMonotone(mean, cfg.base - a, drop);
    }
    if drop <= cfg.base - a {
      TimesMonotone(mean, drop, cfg.base - a);
    }
  }

  /** Each observation closes a tenth of the distance between baseline and volatility. */
  lemma BaselineCloses(f: Functions, cfg: Config, s: State, b: Bar)
    requires Ready(f, cfg, s, b)
    ensures b.vol - Advanced(f, cfg, s, b).meanVol == Times(0.9, b.vol - s.meanVol)
  {
    hide IsSimplex, NextWeights, NextPosteriors, BarLosses, Floor, StateValid, Plus, EffectiveModels, Acceptable;
    AdvancedParts(f, cfg, s, b);
  }

  /** Between the bounds the shrinkage weight is in proportion: the share of the cap is the
      share of the way from the lower bound to the upper. */
  lemma ShrinkInProportion(cfg: Config, b: Bar)
    requires cfg.Valid() && BetaMin(cfg, b) <= b.beta <= BetaMax(cfg, b) && BetaMin(cfg, b) < BetaMax(cfg, b)
    ensures Times(BetaMax(cfg, b) - BetaMin(cfg, b), ShrinkWeight(cfg, b))
         == Times(cfg.shrinkCap, b.beta - BetaMin(cfg, b))
    ensures BetaMin(cfg, b) == (match b.betaMin case None => cfg.betaMin case Some(v) => v)
    ensures BetaMax(cfg, b) == (match b.betaMax case None => cfg.betaMax case Some(v) => v)
  {
    hide Times, Over;
    var span, way := BetaMax(cfg, b) - BetaMin(cfg, b), b.beta - BetaMin(cfg, b);
    var n := Over(way, span);
    Quotient(way, span);
    OverSign(way, span);
    OverMonotone(way, span, span);
    OverSelf(span);
    TimesAssoc(span, n, cfg.shrinkCap);
    TimesSym(way, cfg.shrinkCap);
  }

  // ---- the correlation matrix ----

  lemma CleanEntry(c: seq<seq<real>>, i: nat, j: nat)
    requires SquareOf(c, |c|) && i < |c| && j < |c|
    ensures |Symmetrised(c)| == |Symmetrised(c)[i]| == |c|
    ensures Symmetrised(c)[i][j] == if i == j then 1.0 else Clip(Times(0.5, c[i][j] + c[j][i]), -1.0, 1.0)
  {
  }

  ghost predicate CorrelationAt(c: seq<seq<real>>, i: nat, j: nat)
    requires SquareOf(c, |c|) && i < |c| && j < |c|
  {
    c[i][j] == c[j][i] && -1.0 <= c[i][j] <= 1.0 && c[i][i] == 1.0
  }

  ghost predicate IsCorrelation(c: seq<seq<real>>)
    requires SquareOf(c, |c|)
  {
    forall i, j :: 0 <= i < |c| && 0 <= j < |c| ==> CorrelationAt(c, i, j)
  }

  /** Cleaning always returns a symmetric matrix with unit diagonal and entries in [-1, 1]. */
  lemma CleaningCorrelates(c: seq<seq<real>>)
    requires SquareOf(c, |c|)
    ensures IsCorrelation(Symmetrised(c))
  {
    hide Times, Symmetrised;
    var s := Symmetrised(c);
    forall i, j | 0 <= i < |s| && 0 <= j < |s| ensures CorrelationAt(s, i, j) {
      CleanEntry(c, i, j);
      CleanEntry(c, j, i);
      CleanEntry(c, i, i);
    }
  }

  /** It leaves such a matrix as it is. */
  lemma CleaningKeepsCorrelations(c: seq<seq<real>>)
    requires SquareOf(c, |c|) && IsCorrelation(c)
    ensures Symmetrised(c) == c
  {
    hide Times, Symmetrised;
    forall i | 0 <= i < |c| ensures Symmetrised(c)[i] == c[i] {
      var row := Symmetrised(c)[i];
      forall j | 0 <= j < |c| ensures row[j] == c[i][j] {
        CleanEntry(c, i, j);
        HalfOfBoth(c[i][j]);
        assert CorrelationAt(c, i, j);
      }
    }
  }

  /** And it treats a matrix and its transpose alike. */
  lemma CleaningIgnoresTranspose(c: seq<seq<real>>, d: seq<seq<real>>)
    requires SquareOf(c, |c|) && SquareOf(d, |c|)
    requires forall i, j :: 0 <= i < |c| && 0 <= j < |c| ==> d[i][j] == c[j][i]
    ensures Symmetrised(d) == Symmetrised(c)
  {
    hide Times, Symmetrised;
    forall i | 0 <= i < |c| ensures Symmetrised(d)[i] == Symmetrised(c)[i] {
      var row, other := Symmetrised(c)[i], Symmetrised(d)[i];
      forall j | 0 <= j < |c| ensures row[j] == other[j] {
        CleanEntry(c, i, j);
        CleanEntry(d, i, j);
        assert d[i][j] == c[j][i] && d[j][i] == c[i][j];
      }
    }
  }

  lemma HalfOfBoth(x: real)
    ensures Times(0.5, x + x) == x
  {
  }

  /** What the solver is given: the identity without a correlation matrix, and otherwise the
      cleaned matrix with its off-diagonal entries shrunk by the ridge. */
  lemma CorrelationEntries(cfg: Config, b: Bar, i: nat, j: nat)
    requires Acceptable(b, |b.predictions|) && i < |b.predictions| && j < |b.predictions|
    ensures var m := CorrelationOf(cfg, b);
      && |m| == |m[i]| == |b.predictions|
      && (i == j ==> m[i][j] == 1.0)
      && (i != j ==> match b.correlation
                     case None => m[i][j] == 0.0
                     case Some(c) =>
                       SquareOf(c, |b.predictions|)
                       && m[i][j] == Times(1.0 - cfg.ridge, Clip(Times(0.5, c[i][j] + c[j][i]), -1.0, 1.0)))
  {
    hide Times, Regularised, Symmetrised;
    if b.correlation.Some? {
      RegularisedEntry(cfg.ridge, b.correlation.value, i, j);
      CleanEntry(b.correlation.value, i, j);
    }
  }

  // ---- the weights ----

  /** The initial weights: equal ones, or above the floor in the odds of the exponentials of
      the Sharpe ratios. */
  lemma InitialOdds(f: Functions, cfg: Config, k: nat, dsr: Option<seq<real>>, i: nat, j: nat)
    requires f.Valid() && Exponential(f.exp) && cfg.Valid() && k >= 1 && i < k && j < k
    requires dsr.Some? ==> |dsr.value| == k
    ensures var w, e := InitialWeights(f, cfg, k, dsr), Floor(cfg.solver.floor, k);
      match dsr
      case None => w[i] == w[j]
      case Some(d) => Times(w[i] - e, f.exp(d[j])) == Times(w[j] - e, f.exp(d[i]))
  {
    hide Softmax, Laplace, Times, Sum, IsSimplex, Mix, Uniform, Normalise, Floor, Exponential;
    match dsr
    case None =>
      UniformSimplex(k);
      NormaliseSimplex(Uniform(k));
    case Some(d) =>
      var e, r := Floor(cfg.solver.floor, k), Softmax(f.exp, d);
      LaplaceMixesUniform(e, r);
      NormaliseSimplex(Laplace(e, r));
      SoftmaxOdds(f.exp, d, i, j);
      var keep := 1.0 - Times(k as real, e);
      TimesAssoc(keep, r[i], f.exp(d[j]));
      TimesAssoc(keep, r[j], f.exp(d[i]));
  }

  /** Where the next weights come from: the solver's answer on the current weights, mixed with
      the uniform weights for ambiguity, with the current ones against turnover, and with the
      floor. */
  ghost predicate WeightMoves(f: Functions, cfg: Config, s: State, b: Bar, i: nat)
    requires Ready(f, cfg, s, b) && i < |b.predictions|
  {
    hide *;
    ReadyFacts(f, cfg, s, b);
    SolverReady(f, cfg, s, b);
    var k := |b.predictions|;
    var solved := Solution(f.exp, cfg.solver, BarScores(f, cfg, s, b), CorrelationOf(cfg, b), Some(s.weights))[i];
    var shrunk := Times(1.0 - ShrinkWeight(cfg, b), solved) + Times(ShrinkWeight(cfg, b), Over(1.0, k as real));
    var damped := Times(1.0 - cfg.churn, shrunk) + Times(cfg.churn, s.weights[i]);
    var e := Floor(cfg.solver.floor, k);
    var w := Advanced(f, cfg, s, b).weights;
    |w| == k && w[i] == Times(1.0 - Times(k as real, e), damped) + e
  }

  lemma SolverReady(f: Functions, cfg: Config, s: State, b: Bar)
    requires Ready(f, cfg, s, b)
    ensures Posed(f.exp, cfg.solver, BarScores(f, cfg, s, b), CorrelationOf(cfg, b))
    ensures Startable(Some(s.weights), |b.predictions|)
  {
    hide BarScores, CorrelationOf, Floor, Config.Valid;
    assert cfg.solver.Valid() by { SolverValid(cfg); }
  }

  lemma SolverValid(cfg: Config)
    requires cfg.Valid()
    ensures cfg.solver.Valid()
  {
  }

  lemma ChurnInRange(cfg: Config)
    requires cfg.Valid()
    ensures 0.0 <= cfg.churn < 1.0
  {
  }

  lemma WeightsMove(f: Functions, cfg: Config, s: State, b: Bar, i: nat)
    requires Ready(f, cfg, s, b) && i < |b.predictions|
    ensures WeightMoves(f, cfg, s, b, i)
  {
    hide IsSimplex, BarScores, CorrelationOf, Floor, StateValid, Solution, Times, Over, Acceptable, Config.Valid,
         Functions.Valid, Laplace, Normalise, Sum, ShrinkWeight, Advanced;
    ReadyFacts(f, cfg, s, b);
    SolverReady(f, cfg, s, b);
    AdvancedParts(f, cfg, s, b);
    var k := |b.predictions|;
    ChurnInRange(cfg);
    LaplaceMixesUniform(Floor(cfg.solver.floor, k), Damped(cfg.churn, Target(f, cfg, s, b), s.weights));
  }

  /** The rest of the state: one step on, the losses added, the ambiguity remembered. */
  lemma StateMovesOn(f: Functions, cfg: Config, s: State, b: Bar, i: nat)
    requires Ready(f, cfg, s, b) && i < |b.predictions|
    ensures var t := Advanced(f, cfg, s, b);
      && t.step == s.step + 1 && t.beta == b.beta
      && |t.losses| == |s.losses| == |b.predictions| && t.losses[i] == s.losses[i] + BarLosses(f, cfg, b)[i]
  {
    hide IsSimplex, NextWeights, NextPosteriors, BarLosses, Smoothed, Floor, StateValid, EffectiveModels, Acceptable;
    AdvancedParts(f, cfg, s, b);
    NextWeightsFloored(f, cfg, s, b);
  }

  // ---- what is emitted ----

  /** The parts of the forecast: the mean under the new weights, the mean variance, the
      variance of the means, and the reciprocal of the sum of squared weights. */
  lemma ForecastParts(f: Functions, cfg: Config, s: State, b: Bar)
    requires Ready(f, cfg, s, b)
    ensures var p, y := Emitted(f, cfg, s, b), Standardised(f, b.predictions, b.horizons);
      && p.weights == Advanced(f, cfg, s, b).weights && |p.weights| == |y| == |b.variances|
      && p.point == Dot(p.weights, y) && p.aleatoric == Dot(p.weights, b.variances)
      && p.epistemic == Dot(p.weights, Mul(y, y)) - Times(p.point, p.point)
      && Times(p.effective, Dot(p.weights, p.weights)) == 1.0
      && p.regimes == ForwardPrior(b.regimes, b.transition)
      && p.alpha == Alpha(cfg, s.meanVol, b.vol) && p.shrink == ShrinkWeight(cfg, b)
      && p.effective == Advanced(f, cfg, s, b).effective
  {
    hide IsSimplex, NextWeights, NextPosteriors, BarLosses, Smoothed, Standardised, ForwardPrior, Alpha, ShrinkWeight,
         Floor, StateValid, Positive, Dot, Centred, Plus, Mul, Times, Over, Acceptable, Config.Valid, Functions.Valid;
    ReadyFacts(f, cfg, s, b);
    NextWeightsFloored(f, cfg, s, b);
    EmittedValid(f, cfg, s, b);
    var w, y := NextWeights(f, cfg, s, b), Standardised(f, b.predictions, b.horizons);
    EmittedIsValid(w, y, b.variances);
    Quotient(1.0, Dot(w, w));
    DotPlus(w, b.variances, Mul(y, y));
  }
}
