/** The parts of one bar of online model averaging: forgetting, regime priors and
    posteriors, losses and scores, the correlation matrix, shrinkage, damping and floor. */
module ModelAveraging {
  import opened Results
  import opened Vectors
  import opened Simplex
  import opened MirrorDescent

  /** The transcendental functions, of which only signs are used. */
  datatype Functions = Functions(exp: real -> real, log: real -> real, sqrt: real -> real) {
    ghost predicate Valid() {
      AlwaysPositive(exp) && forall x :: x >= 1.0 ==> sqrt(x) > 0.0
    }
  }

  datatype Config = Config(base: real, sensitivity: real, lowest: real, highest: real, downside: real,
                           churn: real, ridge: real, shrinkCap: real, solver: Solver, betaMin: real, betaMax: real)
  {
    ghost predicate Valid() {
      && 0.8 < base < 0.999 && 0.5 < lowest < base < highest < 1.0
      && sensitivity >= 0.0 && downside >= 0.0 && 0.0 <= churn < 1.0
      && 0.0 < ridge < 1.0 && 0.0 <= shrinkCap <= 1.0
      && solver.Valid() && 0.0 < betaMin < betaMax
    }
  }

  /** The smoothing rate of the volatility baseline. */
  const SMOOTHING := 0.1

  datatype State = State(step: nat, weights: seq<real>, posteriors: seq<seq<real>>, losses: seq<real>,
                         effective: real, meanVol: real, beta: real)

  datatype Prediction = Prediction(point: real, aleatoric: real, epistemic: real, total: real, weights: seq<real>,
                                   regimes: seq<real>, effective: real, alpha: real, shrink: real)

  datatype Bar = Bar(predictions: seq<real>, variances: seq<real>, realized: real, vol: real, regimes: seq<real>,
                     transition: seq<seq<real>>, beta: real, correlation: Option<seq<seq<real>>>,
                     horizons: Option<seq<real>>, betaMin: Option<real>, betaMax: Option<real>)

  datatype Rejection = NoModels | VarianceShape | VarianceNotPositive | StateShape | VolNotPositive
                     | BetaNotPositive | RegimeProbs | Transition | Horizons | CorrelationShape

  // ---- what the validators demand ----

  /** The relative closeness test applied to sums that should be 1. */
  predicate CloseToOne(a: real) { Abs(a - 1.0) <= Times(0.000000001, Max(a, 1.0)) }

  ghost predicate Distribution(p: seq<real>, k: nat) { |p| == k && NonNeg(p) && CloseToOne(Sum(p)) }

  ghost predicate TransitionMatrix(m: seq<seq<real>>) { |m| == 3 && forall i :: 0 <= i < 3 ==> Distribution(m[i], 3) }

  ghost predicate HorizonsFit(h: Option<seq<real>>, k: nat) {
    h.Some? ==> |h.value| == k && forall i :: 0 <= i < k ==> h.value[i] >= 1.0
  }

  /** The inputs of one bar that the engine accepts for k models. */
  ghost predicate Acceptable(b: Bar, k: nat) {
    && k >= 1 && |b.predictions| == k && |b.variances| == k && Positive(b.variances)
    && b.vol > 0.0 && b.beta > 0.0
    && Distribution(b.regimes, 3) && TransitionMatrix(b.transition)
    && HorizonsFit(b.horizons, k)
    && (b.correlation.Some? ==> SquareOf(b.correlation.value, k))
  }

  /** Everything the state constructor checks. */
  ghost predicate StateValid(s: State, k: nat) {
    && k >= 1 && |s.weights| == k && IsSimplex(s.weights) && Positive(s.weights)
    && |s.posteriors| == 3 && (forall j :: 0 <= j < 3 ==> |s.posteriors[j]| == k && IsSimplex(s.posteriors[j]))
    && |s.losses| == k
    && 1.0 <= s.effective <= k as real && s.meanVol > 0.0 && s.beta > 0.0
  }

  /** Every weight keeps the floor. */
  ghost predicate AboveFloor(cfg: Config, w: seq<real>)
    requires cfg.Valid() && |w| >= 1
  {
    forall i :: 0 <= i < |w| ==> w[i] >= Floor(cfg.solver.floor, |w|)
  }

  /** Everything the prediction constructor checks. */
  ghost predicate PredictionValid(p: Prediction, k: nat) {
    && p.aleatoric > 0.0 && p.epistemic >= 0.0 && p.total == p.aleatoric + p.epistemic
    && |p.weights| == k && IsSimplex(p.weights) && Positive(p.weights)
    && |p.regimes| == 3 && IsSimplex(p.regimes)
    && 1.0 <= p.effective <= k as real && 0.0 < p.alpha < 1.0 && 0.0 <= p.shrink <= 1.0
  }

  // ---- volatility-adaptive forgetting ----

  function Alpha(cfg: Config, mean: real, vol: real): (a: real)
    requires cfg.Valid() && mean > 0.0
    ensures cfg.lowest <= a <= cfg.highest
  {
    Clip(cfg.base - Times(cfg.sensitivity, Over(vol - mean, mean)), cfg.lowest, cfg.highest)
  }

  /** More volatility forgets faster, and volatility at the baseline forgets at the base
      rate. */
  lemma AlphaFallsWithVolatility(cfg: Config, mean: real, calm: real, wild: real)
    requires cfg.Valid() && mean > 0.0 && calm <= wild
    ensures Alpha(cfg, mean, calm) >= Alpha(cfg, mean, wild)
    ensures Alpha(cfg, mean, mean) == cfg.base
  {
    hide Times, Over;
    OverMonotone(calm - mean, wild - mean, mean);
    TimesMonotone(cfg.sensitivity, Over(calm - mean, mean), Over(wild - mean, mean));
    assert Over(mean - mean, mean) == 0.0 by { OverZero(mean); }
    TimesZero(cfg.sensitivity);
  }

  lemma OverZero(k: real)
    requires k > 0.0
    ensures Over(k - k, k) == 0.0
  {
  }

  function Smoothed(rate: real, mean: real, vol: real): real { Times(1.0 - rate, mean) + Times(rate, vol) }

  /** The new baseline lies between the old one and the observation. */
  lemma SmoothedBetween(rate: real, mean: real, vol: real, lo: real, hi: real)
    requires 0.0 <= rate <= 1.0 && lo <= mean <= hi && lo <= vol <= hi
    ensures lo <= Smoothed(rate, mean, vol) <= hi
  {
    WeightedMeanBetween(rate, mean, vol, lo, hi);
  }

  datatype VolFailure = NotPositive

  class VolatilityAdaptiveForgetting {
    const cfg: Config
    const rate: real
    var mean: real

    ghost predicate Valid()
      reads this
    {
      cfg.Valid() && 0.0 < rate <= 1.0 && mean > 0.0
    }

    constructor (cfg: Config, mean: real, rate: real)
      requires cfg.Valid() && 0.0 < rate <= 1.0 && mean > 0.0
      ensures Valid() && this.cfg == cfg && this.rate == rate && this.mean == mean
    {
      this.cfg := cfg;
      this.rate := rate;
      this.mean := mean;
    }

    method ComputeAlpha(vol: real) returns (r: Result<real, VolFailure>)
      requires Valid()
      modifies this
      ensures Valid()
      ensures r.Ok? <==> vol > 0.0
      ensures r.Ok? ==> r.value == Alpha(cfg, old(mean), vol) && mean == Smoothed(rate, old(mean), vol)
      ensures r.Err? ==> mean == old(mean)
    {
      if vol <= 0.0 {
        return Err(NotPositive);
      }
      var delta := Over(vol - mean, mean);
      var alpha := Clip(cfg.base - Times(cfg.sensitivity, delta), cfg.lowest, cfg.highest);
      SmoothedBetween(rate, mean, vol, Min(mean, vol), Max(mean, vol));
      mean := Times(1.0 - rate, mean) + Times(rate, vol);
      r := Ok(alpha);
    }
  }

  // ---- regimes ----

  /** The transposed transition matrix applied to the current probabilities. */
  function Project(p: seq<real>, m: seq<seq<real>>): (r: seq<real>)
    requires |p| == 3 && |m| == 3 && forall i :: 0 <= i < 3 ==> |m[i]| == 3
    ensures |r| == 3
    ensures forall j :: 0 <= j < 3 ==> r[j] == Times(p[0], m[0][j]) + Times(p[1], m[1][j]) + Times(p[2], m[2][j])
  {
    seq(3, j requires 0 <= j < 3 => Times(p[0], m[0][j]) + Times(p[1], m[1][j]) + Times(p[2], m[2][j]))
  }

  function Clipped(v: seq<real>): (r: seq<real>)
    ensures |r| == |v| && forall i :: 0 <= i < |v| ==> r[i] == Clip(v[i], 0.0, 1.0)
  {
    seq(|v|, i requires 0 <= i < |v| => Clip(v[i], 0.0, 1.0))
  }

  lemma {:induction false} Sum3(v: seq<real>)
    requires |v| == 3
    ensures Sum(v) == v[0] + v[1] + v[2]
  {
    assert v[..2][..1][..0] == [];
    assert v[..2][..1] == [v[0]] && v[..2] == [v[0], v[1]];
    assert Sum(v[..2]) == Sum(v[..2][..1]) + v[1];
    assert Sum(v[..2][..1]) == Sum(v[..2][..1][..0]) + v[0];
  }

  /** The forward projection never collapses, whatever rounding the inputs carry. */
  lemma ProjectionSurvives(p: seq<real>, m: seq<seq<real>>)
    requires Distribution(p, 3) && TransitionMatrix(m)
    ensures NonNeg(Clipped(Project(p, m))) && Sum(Clipped(Project(p, m))) > 0.0
  {
    hide Sum, Times, Clipped, Project;
    Sum3(p);
    var i := CarriesMass(p);
    Sum3(m[i]);
    var j := CarriesMass(m[i]);
    var q := Project(p, m);
    forall n | 0 <= n < 3 ensures Times(p[n], m[n][j]) >= 0.0 {
      NonNegProduct(p[n], m[n][j]);
    }
    PositiveProduct(p[i], m[i][j]);
    assert q[j] > 0.0;
    EntryAtMostSum(Clipped(q), j);
  }

  lemma CarriesMass(p: seq<real>) returns (i: nat)
    requires Distribution(p, 3)
    ensures i < 3 && p[i] > 0.0
  {
    Sum3(p);
    assert Sum(p) > 0.0;
    i := if p[0] > 0.0 then 0 else if p[1] > 0.0 then 1 else 2;
  }

  function ForwardPrior(p: seq<real>, m: seq<seq<real>>): (r: seq<real>)
    requires Distribution(p, 3) && TransitionMatrix(m)
    ensures |r| == 3 && IsSimplex(r)
  {
    var q := Clipped(Project(p, m));
    ProjectionSurvives(p, m);
    NormaliseSimplex(q);
    Normalise(q)
  }

  /** For exact distributions clipping and renormalising change nothing: the forward
      prior is the Markov projection itself. */
  lemma ForwardPriorIsProjection(p: seq<real>, m: seq<seq<real>>)
    requires |p| == 3 && IsSimplex(p) && |m| == 3
    requires forall i :: 0 <= i < 3 ==> |m[i]| == 3 && IsSimplex(m[i])
    ensures Distribution(p, 3) && TransitionMatrix(m) && ForwardPrior(p, m) == Project(p, m)
  {
    hide Sum, Times, Clipped, Project, Normalise;
    assert forall i :: 0 <= i < 3 ==> Distribution(m[i], 3) by { ExactIsClose(); }
    assert Distribution(p, 3) by { ExactIsClose(); }
    var q := Project(p, m);
    Sum3(q);
    Sum3(p);
    Sum3(m[0]);
    Sum3(m[1]);
    Sum3(m[2]);
    RowShare(p[0], m[0]);
    RowShare(p[1], m[1]);
    RowShare(p[2], m[2]);
    assert q[0] + q[1] + q[2] == 1.0;
    assert Clipped(q) == q;
    NormaliseSimplex(q);
  }

  lemma ExactIsClose()
    ensures CloseToOne(1.0)
  {
  }

  lemma RowShare(a: real, row: seq<real>)
    requires a >= 0.0 && |row| == 3 && NonNeg(row) && row[0] + row[1] + row[2] == 1.0
    ensures Times(a, row[0]) + Times(a, row[1]) + Times(a, row[2]) == a
    ensures forall j :: 0 <= j < 3 ==> Times(a, row[j]) >= 0.0
  {
    Distribute(a, row[0], row[1]);
    Distribute(a, row[0] + row[1], row[2]);
    TimesOne(a);
    forall j | 0 <= j < 3 ensures Times(a, row[j]) >= 0.0 {
      NonNegProduct(a, row[j]);
    }
  }

  // ---- posteriors ----

  function Exponentials(exp: real -> real, x: seq<real>): (r: seq<real>)
    requires |x| >= 1
    ensures |r| == |x| && forall i :: 0 <= i < |x| ==> r[i] == exp(Shifted(x)[i])
  {
    seq(|x|, i requires 0 <= i < |x| => exp(Shifted(x)[i]))
  }

  lemma ExponentialsPositive(exp: real -> real, x: seq<real>)
    requires AlwaysPositive(exp) && |x| >= 1
    ensures Positive(Exponentials(exp, x)) && Sum(Exponentials(exp, x)) > 0.0
    ensures IsSimplex(Normalise(Exponentials(exp, x))) && Positive(Normalise(Exponentials(exp, x)))
  {
    hide Sum, Normalise, Exponentials, Shifted;
    forall i | 0 <= i < |x| ensures Exponentials(exp, x)[i] > 0.0 {
      var e := Shifted(x)[i];
      assert exp(e) > 0.0;
    }
    PositiveSum(Exponentials(exp, x));
    NormaliseSimplex(Exponentials(exp, x));
  }

  /** Normalised exponentials, shifted by the largest argument. */
  function Softmax(exp: real -> real, x: seq<real>): (r: seq<real>)
    requires AlwaysPositive(exp) && |x| >= 1
    ensures Interior(r, |x|)
  {
    ExponentialsPositive(exp, x);
    Normalise(Exponentials(exp, x))
  }

  /** One regime's posterior tempered by the memory factor; the second normalisation
      finds the sum already equal to 1. */
  function Tempered(f: Functions, row: seq<real>, alpha: real): (r: seq<real>)
    requires f.Valid() && |row| >= 1
    ensures |r| == |row| && Interior(r, |row|)
  {
    var r := Softmax(f.exp, seq(|row|, i requires 0 <= i < |row| => Times(alpha, f.log(row[i] + TINY))));
    NormaliseSimplex(r);
    Normalise(r)
  }

  ghost predicate Rows(rows: seq<seq<real>>, k: nat) {
    |rows| == 3 && forall j :: 0 <= j < 3 ==> Interior(rows[j], k)
  }

  /** The tempered rows blended by the forward regime probabilities. */
  function Blended(p: seq<real>, rows: seq<seq<real>>, k: nat): (r: seq<real>)
    requires |p| == 3 && |rows| == 3 && forall j :: 0 <= j < 3 ==> |rows[j]| == k
    ensures |r| == k
    ensures forall i :: 0 <= i < k ==>
      r[i] == Times(p[0], rows[0][i]) + Times(p[1], rows[1][i]) + Times(p[2], rows[2][i])
  {
    seq(k, i requires 0 <= i < k => Times(p[0], rows[0][i]) + Times(p[1], rows[1][i]) + Times(p[2], rows[2][i]))
  }

  /** The blend is a positive probability vector, so clipping and renormalising it
      change nothing. */
  lemma BlendedIsInterior(p: seq<real>, rows: seq<seq<real>>, k: nat)
    requires |p| == 3 && IsSimplex(p) && Rows(rows, k)
    ensures Interior(Blended(p, rows, k), k) && Clipped(Blended(p, rows, k)) == Blended(p, rows, k)
    ensures Sum(Clipped(Blended(p, rows, k))) == 1.0
  {
    hide Sum, Times, Clipped, Blended;
    var b := Blended(p, rows, k);
    var first := seq(k, i requires 0 <= i < k => Times(p[0], rows[0][i]) + Times(p[1], rows[1][i]));
    SumLinear(p[0], rows[0], p[1], rows[1], first);
    SumScale(p[2], rows[2], Scale(p[2], rows[2]));
    SumAdd(first, Scale(p[2], rows[2]), b);
    Sum3(p);
    TimesOne(p[0]);
    TimesOne(p[1]);
    TimesOne(p[2]);
    forall i | 0 <= i < k ensures b[i] > 0.0 {
      SharePositive(p[0], rows[0][i]);
      SharePositive(p[1], rows[1][i]);
      SharePositive(p[2], rows[2][i]);
    }
    forall i | 0 <= i < k ensures Clipped(b)[i] == b[i] {
      EntryAtMostSum(b, i);
    }
  }

  lemma SharePositive(a: real, x: real)
    requires a >= 0.0 && x > 0.0
    ensures Times(a, x) >= 0.0 && (a > 0.0 ==> Times(a, x) > 0.0)
  {
    NonNegProduct(a, x);
  }

  function CompositePrior(p: seq<real>, rows: seq<seq<real>>, k: nat): (r: seq<real>)
    requires |p| == 3 && IsSimplex(p) && Rows(rows, k)
    ensures |r| == k && Interior(r, k)
  {
    BlendedIsInterior(p, rows, k);
    var c := Clipped(Blended(p, rows, k));
    NormaliseSimplex(c);
    Normalise(c)
  }

  /** The posterior row carried to the next bar.  The source's fallback for a row that
      sums to nothing cannot be reached with positive exponentials. */
  function NextRow(f: Functions, row: seq<real>, prob: real, losses: seq<real>, e: real): (r: seq<real>)
    requires f.Valid() && |row| == |losses| >= 1 && e > 0.0 && Times(|row| as real, e) < 1.0
    ensures |r| == |row| && IsSimplex(r) && forall i :: 0 <= i < |r| ==> r[i] >= e
  {
    var x := seq(|row|, i requires 0 <= i < |row| => f.log(Max(row[i], TINY)) - Times(prob, losses[i]));
    var r := Softmax(f.exp, x);
    LaplaceMixesUniform(e, r);
    Laplace(e, r)
  }

  /** Softmax keeps the order of its arguments. */
  lemma SoftmaxKeepsOrder(exp: real -> real, x: seq<real>, i: nat, j: nat)
    requires AlwaysPositive(exp) && Increasing(exp) && i < |x| && j < |x| && x[i] >= x[j]
    ensures Softmax(exp, x)[i] >= Softmax(exp, x)[j]
  {
    hide Sum, Over, Shifted, IsSimplex;
    ExponentialsPositive(exp, x);
    var e := Exponentials(exp, x);
    assert Shifted(x)[j] <= Shifted(x)[i];
    assert e[j] <= e[i];
    OverMonotone(e[j], e[i], Sum(e));
  }

  /** Tempering never changes which of two models a regime prefers. */
  lemma TemperedKeepsOrder(f: Functions, row: seq<real>, alpha: real, i: nat, j: nat)
    requires f.Valid() && Increasing(f.exp) && IncreasingOnPositives(f.log) && alpha >= 0.0
    requires i < |row| && j < |row| && row[i] >= row[j] >= 0.0
    ensures Tempered(f, row, alpha)[i] >= Tempered(f, row, alpha)[j]
  {
    hide Softmax, Normalise, Times, Sum;
    var x := seq(|row|, k requires 0 <= k < |row| => Times(alpha, f.log(row[k] + TINY)));
    var a, b := row[j] + TINY, row[i] + TINY;
    assert f.log(a) <= f.log(b);
    TimesMonotone(alpha, f.log(a), f.log(b));
    SoftmaxKeepsOrder(f.exp, x, i, j);
    NormaliseSimplex(Softmax(f.exp, x));
  }

  /** A model that was at least as likely and lost no more stays at least as likely. */
  lemma NextRowKeepsOrder(f: Functions, row: seq<real>, prob: real, losses: seq<real>, e: real, i: nat, j: nat)
    requires f.Valid() && Increasing(f.exp) && IncreasingOnPositives(f.log) && prob >= 0.0
    requires |row| == |losses| && i < |row| && j < |row| && e > 0.0 && Times(|row| as real, e) < 1.0
    requires row[i] >= row[j] && losses[i] <= losses[j]
    ensures NextRow(f, row, prob, losses, e)[i] >= NextRow(f, row, prob, losses, e)[j]
  {
    hide Softmax, Laplace, Times, Sum, IsSimplex, Mix, Uniform, Normalise;
    var x := seq(|row|, k requires 0 <= k < |row| => f.log(Max(row[k], TINY)) - Times(prob, losses[k]));
    var a, b := Max(row[j], TINY), Max(row[i], TINY);
    assert f.log(a) <= f.log(b);
    TimesMonotone(prob, losses[i], losses[j]);
    SoftmaxKeepsOrder(f.exp, x, i, j);
    var r := Softmax(f.exp, x);
    LaplaceMixesUniform(e, r);
    TimesMonotone(1.0 - Times(|row| as real, e), r[j], r[i]);
  }

  // ---- losses and scores ----

  function Standardised(f: Functions, predictions: seq<real>, horizons: Option<seq<real>>): (r: seq<real>)
    requires f.Valid() && HorizonsFit(horizons, |predictions|)
    ensures |r| == |predictions|
  {
    match horizons
    case None => predictions
    case Some(h) =>
      seq(|predictions|, i requires 0 <= i < |predictions| =>
        assert f.sqrt(h[i]) > 0.0; Over(predictions[i], f.sqrt(h[i])))
  }

  function Loss(downside: real, y: real, forecast: real): real {
    Max(0.0, Times(y - forecast, y - forecast) + Times(downside, Max(0.0, Times(-y, forecast))))
  }

  function Losses(downside: real, y: real, forecasts: seq<real>): (r: seq<real>)
    ensures |r| == |forecasts| && NonNeg(r)
    ensures forall i :: 0 <= i < |r| ==> r[i] == Loss(downside, y, forecasts[i])
  {
    seq(|forecasts|, i requires 0 <= i < |forecasts| => Loss(downside, y, forecasts[i]))
  }

  /** Of two different forecasts equally far from the outcome at most one has the wrong
      sign, and it costs strictly more exactly when it does and wrong signs are penalised. */
  lemma WrongSignCostsMore(downside: real, y: real, a: real, b: real)
    requires downside >= 0.0 && a != b && Abs(y - a) == Abs(y - b)
    ensures Loss(downside, y, a) == Times(y - a, y - a) + Times(downside, Max(0.0, -Times(y, a)))
    ensures Loss(downside, y, b) > Loss(downside, y, a) <==> downside > 0.0 && Times(y, b) < 0.0
  {
    hide Times;
    assert y - b == -(y - a) && a + b == y + y;
    Negated(y - a, -(y - a));
    TimesSym(y - a, -(y - a));
    Negated(y - a, y - a);
    SquarePositive(y - a);
    SquarePositive(y);
    Distribute(y, a, b);
    Distribute(y, y, y);
    Negated(y, a);
    Negated(y, b);
    TimesZero(downside);
    NonNegProduct(downside, Max(0.0, -Times(y, a)));
    if Times(y, b) < 0.0 && downside > 0.0 {
      PositiveProduct(downside, -Times(y, b));
    } else if Times(y, b) < 0.0 {
      TimesZero(-Times(y, b));
    }
  }

  lemma Negated(a: real, b: real)
    ensures Times(-a, b) == -Times(a, b)
  {
  }

  function Scores(f: Functions, losses: seq<real>, prior: seq<real>): (r: seq<real>)
    requires |losses| == |prior|
    ensures |r| == |losses|
  {
    seq(|losses|, i requires 0 <= i < |losses| => losses[i] - f.log(Max(prior[i], TINY)))
  }

  // ---- correlation ----

  /** The symmetric part of the input, clipped, with a unit diagonal. */
  function Symmetrised(c: seq<seq<real>>): (r: seq<seq<real>>)
    requires SquareOf(c, |c|)
    ensures SquareOf(r, |c|)
  {
    seq(|c|, i requires 0 <= i < |c| => seq(|c|, j requires 0 <= j < |c| =>
      if i == j then 1.0 else Clip(Times(0.5, c[i][j] + c[j][i]), -1.0, 1.0)))
  }

  /** Ridge shrinkage toward the identity, the diagonal reset and the result symmetrised. */
  function Regularised(ridge: real, c: seq<seq<real>>): (r: seq<seq<real>>)
    requires SquareOf(c, |c|)
    ensures SquareOf(r, |c|)
  {
    var s := Symmetrised(c);
    var reg := seq(|c|, i requires 0 <= i < |c| => seq(|c|, j requires 0 <= j < |c| =>
      if i == j then 1.0 else Times(1.0 - ridge, s[i][j])));
    seq(|c|, i requires 0 <= i < |c| => seq(|c|, j requires 0 <= j < |c| =>
      Times(0.5, reg[i][j] + reg[j][i])))
  }

  function Identity(k: nat): (r: seq<seq<real>>)
    ensures SquareOf(r, k)
  {
    seq(k, i requires 0 <= i < k => seq(k, j requires 0 <= j < k => if i == j then 1.0 else 0.0))
  }

  /** x' C x. */
  function Quadratic(c: seq<seq<real>>, x: seq<real>): real
    requires SquareOf(c, |x|)
  {
    Dot(x, seq(|x|, i requires 0 <= i < |x| => Dot(c[i], x)))
  }

  ghost predicate AtLeastRidge(c: seq<seq<real>>, ridge: real)
    requires SquareOf(c, |c|)
  {
    forall x: seq<real> {:trigger Quadratic(c, x)} :: |x| == |c| ==> Quadratic(c, x) >= Times(ridge, Dot(x, x))
  }

  lemma RegularisedEntry(ridge: real, c: seq<seq<real>>, i: nat, j: nat)
    requires SquareOf(c, |c|) && i < |c| && j < |c|
    ensures Regularised(ridge, c)[i][j] == if i == j then 1.0 else Times(1.0 - ridge, Symmetrised(c)[i][j])
  {
    assert Symmetrised(c)[i][j] == Symmetrised(c)[j][i];
  }

  /** Shrinkage mixes the quadratic form of the cleaned input with the squared length. */
  lemma RegularisedForm(ridge: real, c: seq<seq<real>>, x: seq<real>)
    requires SquareOf(c, |c|) && |x| == |c|
    ensures Quadratic(Regularised(ridge, c), x)
         == Times(1.0 - ridge, Quadratic(Symmetrised(c), x)) + Times(ridge, Dot(x, x))
  {
    hide Dot, Times, Regularised, Symmetrised;
    var k := |c|;
    var r, s := Regularised(ridge, c), Symmetrised(c);
    var rx := seq(k, i requires 0 <= i < k => Dot(r[i], x));
    var sx := seq(k, i requires 0 <= i < k => Dot(s[i], x));
    forall i | 0 <= i < k ensures rx[i] == Times(1.0 - ridge, sx[i]) + Times(ridge, x[i]) {
      RegularisedRow(ridge, c, x, i);
    }
    DotMix(1.0 - ridge, sx, ridge, x, rx, x);
    DotSym(x, rx);
    DotSym(x, sx);
  }

  lemma RegularisedRow(ridge: real, c: seq<seq<real>>, x: seq<real>, i: nat)
    requires SquareOf(c, |c|) && |x| == |c| && i < |c|
    ensures Dot(Regularised(ridge, c)[i], x) == Times(1.0 - ridge, Dot(Symmetrised(c)[i], x)) + Times(ridge, x[i])
  {
    hide Dot, Times, Regularised;
    var k := |c|;
    var unit := Vertex(k, i);
    forall j | 0 <= j < k
      ensures Regularised(ridge, c)[i][j] == Times(1.0 - ridge, Symmetrised(c)[i][j]) + Times(ridge, unit[j])
    {
      RegularisedEntry(ridge, c, i, j);
      TimesOne(1.0 - ridge);
      TimesOne(ridge);
      TimesZero(ridge);
    }
    DotMix(1.0 - ridge, Symmetrised(c)[i], ridge, unit, Regularised(ridge, c)[i], x);
    VertexDot(x, i);
    DotSym(x, unit);
  }

  lemma DotMix(a: real, u: seq<real>, b: real, v: seq<real>, w: seq<real>, x: seq<real>)
    requires |u| == |v| == |w| == |x|
    requires forall i :: 0 <= i < |u| ==> w[i] == Times(a, u[i]) + Times(b, v[i])
    ensures Dot(w, x) == Times(a, Dot(u, x)) + Times(b, Dot(v, x))
  {
    hide Dot, Times;
    DotScale(a, u, Scale(a, u), x);
    DotScale(b, v, Scale(b, v), x);
    DotAdd(Scale(a, u), Scale(b, v), w, x);
  }

  /** The eigenvalue floor the source documents holds exactly for inputs whose cleaned
      form is positive semidefinite; shrinkage cannot repair any other. */
  lemma RidgeFloorIffSemidefinite(ridge: real, c: seq<seq<real>>)
    requires 0.0 < ridge < 1.0 && SquareOf(c, |c|)
    ensures AtLeastRidge(Regularised(ridge, c), ridge) <==> AtLeastRidge(Symmetrised(c), 0.0)
  {
    hide Quadratic, Dot, Times, Regularised, Symmetrised;
    var r, s := Regularised(ridge, c), Symmetrised(c);
    forall x: seq<real> | |x| == |c|
      ensures Quadratic(r, x) >= Times(ridge, Dot(x, x)) <==> Quadratic(s, x) >= Times(0.0, Dot(x, x))
    {
      RegularisedForm(ridge, c, x);
      TimesZero(Dot(x, x));
      TimesZero(1.0 - ridge);
      if Quadratic(s, x) >= 0.0 {
        NonNegProduct(1.0 - ridge, Quadratic(s, x));
      } else {
        TimesStrict(1.0 - ridge, Quadratic(s, x), 0.0);
      }
    }
  }

  /** Three models, each perfectly opposed to the others, pass every shape check and are
      beyond repair. */
  lemma OpposedModelsBreakTheFloor(ridge: real)
    requires 0.0 < ridge < 1.0
    ensures SquareOf(OPPOSED, 3) && !AtLeastRidge(Regularised(ridge, OPPOSED), ridge)
  {
    hide Quadratic, Dot, Regularised, Symmetrised;
    var x := [1.0, 1.0, 1.0];
    OpposedSymmetric();
    OpposedForm(x);
    TimesZero(Dot(x, x));
    RidgeFloorIffSemidefinite(ridge, OPPOSED);
  }

  const OPPOSED: seq<seq<real>> := [[1.0, -1.0, -1.0], [-1.0, 1.0, -1.0], [-1.0, -1.0, 1.0]]

  lemma OpposedSymmetric()
    ensures SquareOf(OPPOSED, 3) && Symmetrised(OPPOSED) == OPPOSED
  {
    var s := Symmetrised(OPPOSED);
    assert s[0] == OPPOSED[0];
    assert s[1] == OPPOSED[1];
    assert s[2] == OPPOSED[2];
  }

  lemma OpposedForm(x: seq<real>)
    requires x == [1.0, 1.0, 1.0]
    ensures Quadratic(OPPOSED, x) == -3.0
  {
    hide Sum;
    var cx := seq(3, i requires 0 <= i < 3 => Dot(OPPOSED[i], x));
    Sum3(Mul(OPPOSED[0], x));
    Sum3(Mul(OPPOSED[1], x));
    Sum3(Mul(OPPOSED[2], x));
    assert cx == [-1.0, -1.0, -1.0];
    Sum3(Mul(x, cx));
  }

  // ---- shrinkage, damping, floor ----

  /** The bounds in force: those of the bar where it brings any. */
  function BetaMin(cfg: Config, b: Bar): real { if b.betaMin.None? then cfg.betaMin else b.betaMin.value }

  function BetaMax(cfg: Config, b: Bar): real { if b.betaMax.None? then cfg.betaMax else b.betaMax.value }

  function ShrinkWeight(cfg: Config, b: Bar): (l: real)
    requires cfg.Valid()
    ensures 0.0 <= l <= 1.0
  {
    var lo, hi := BetaMin(cfg, b), BetaMax(cfg, b);
    var n := if hi > lo then Clip(Over(b.beta - lo, hi - lo), 0.0, 1.0) else if b.beta >= hi then 1.0 else 0.0;
    NonNegProduct(n, cfg.shrinkCap);
    TimesMonotone(cfg.shrinkCap, n, 1.0);
    TimesOne(cfg.shrinkCap);
    TimesSym(n, cfg.shrinkCap);
    Times(n, cfg.shrinkCap)
  }

  /** More ambiguity shrinks more, whatever the bounds: by the full cap from the upper one
      on, not at all below it up to the lower one.  Crossed bounds make it a single step. */
  lemma ShrinkGrowsWithAmbiguity(cfg: Config, b: Bar, beta: real)
    requires cfg.Valid() && b.beta <= beta
    ensures ShrinkWeight(cfg, b) <= ShrinkWeight(cfg, b.(beta := beta))
    ensures b.beta <= BetaMin(cfg, b) && b.beta < BetaMax(cfg, b) ==> ShrinkWeight(cfg, b) == 0.0
    ensures b.beta >= BetaMax(cfg, b) ==> ShrinkWeight(cfg, b) == cfg.shrinkCap
  {
    hide Times, Over;
    var lo, hi := BetaMin(cfg, b), BetaMax(cfg, b);
    TimesZero(cfg.shrinkCap);
    TimesOne(cfg.shrinkCap);
    if hi > lo {
      var span := hi - lo;
      OverMonotone(b.beta - lo, beta - lo, span);
      var n, m := Clip(Over(b.beta - lo, span), 0.0, 1.0), Clip(Over(beta - lo, span), 0.0, 1.0);
      TimesMonotone(cfg.shrinkCap, n, m);
      TimesSym(cfg.shrinkCap, n);
      TimesSym(cfg.shrinkCap, m);
      OverZero(span);
      OverSelf(span);
      if b.beta <= lo {
        OverMonotone(b.beta - lo, span - span, span);
      }
      if b.beta >= hi {
        OverMonotone(span, b.beta - lo, span);
      }
    }
  }

  function Shrunk(l: real, w: seq<real>): (r: seq<real>)
    requires 0.0 <= l <= 1.0 && IsSimplex(w)
    ensures |r| == |w| && IsSimplex(r) && r == Mix(l, w, Uniform(|w|))
  {
    UniformSimplex(|w|);
    MixSimplex(l, w, Uniform(|w|));
    Normalise(Mix(l, w, Uniform(|w|)))
  }

  function Damped(l: real, w: seq<real>, previous: seq<real>): (r: seq<real>)
    requires 0.0 <= l < 1.0 && IsSimplex(w) && IsSimplex(previous) && |w| == |previous|
    ensures |r| == |w| && IsSimplex(r) && r == Mix(l, w, previous)
  {
    MixSimplex(l, w, previous);
    Normalise(Mix(l, w, previous))
  }

  function Floored(eps: real, w: seq<real>): (r: seq<real>)
    requires eps > 0.0 && IsSimplex(w)
    ensures |r| == |w| && IsSimplex(r)
    ensures forall i :: 0 <= i < |r| ==> r[i] >= Floor(eps, |w|)
    ensures r == Mix(Times(|w| as real, Floor(eps, |w|)), w, Uniform(|w|))
  {
    LaplaceMixesUniform(Floor(eps, |w|), w);
    Laplace(Floor(eps, |w|), w)
  }

  /** Turnover: the weights move at most the damped share of what was asked for, plus
      the pull of the floor toward the uniform weights. */
  lemma TurnoverBound(churn: real, eps: real, target: seq<real>, previous: seq<real>)
    requires 0.0 <= churn < 1.0 && eps > 0.0 && IsSimplex(target) && IsSimplex(previous) && |target| == |previous|
    ensures var l := Times(|target| as real, Floor(eps, |target|));
      Change(Floored(eps, Damped(churn, target, previous)), previous)
      <= Times(1.0 - l, Times(1.0 - churn, Change(target, previous))) + Times(l, Change(Uniform(|target|), previous))
  {
    hide Change, Times, Floor, Mix, Uniform, Floored, Damped;
    var k := |target|;
    var l := Times(k as real, Floor(eps, k));
    var d := Damped(churn, target, previous);
    PositiveProduct(k as real, Floor(eps, k));
    MixChange(churn, target, previous, previous);
    NoChange(previous);
    TimesZero(churn);
    MixChange(l, d, Uniform(k), previous);
    TimesMonotone(1.0 - l, Change(d, previous), Times(1.0 - churn, Change(target, previous)));
  }

  // ---- variance ----

  function Centred(y: seq<real>, mu: real): (r: seq<real>)
    ensures |r| == |y| && NonNeg(r) && forall i :: 0 <= i < |y| ==> r[i] == Times(y[i] - mu, y[i] - mu)
  {
    forall i | 0 <= i < |y| ensures Times(y[i] - mu, y[i] - mu) >= 0.0 { SquarePositive(y[i] - mu); }
    seq(|y|, i requires 0 <= i < |y| => Times(y[i] - mu, y[i] - mu))
  }

  /** The law of total variance: expected variance plus disagreement is the second
      moment of the mixture less the squared mean. */
  lemma TotalVariance(w: seq<real>, y: seq<real>, variances: seq<real>)
    requires IsSimplex(w) && |w| == |y| == |variances|
    ensures var mu := Dot(w, y);
      Dot(w, variances) + Dot(w, Centred(y, mu)) == Dot(w, Plus(variances, Mul(y, y))) - Times(mu, mu)
  {
    hide Sum, Times, Dot, Mul, Plus, Centred;
    var mu := Dot(w, y);
    var second := Plus(variances, Mul(y, y));
    var mean := Scale(-2.0 * mu, y);
    var square := Const(|y|, Times(mu, mu));
    var left := Plus(variances, Centred(y, mu));
    forall i | 0 <= i < |y| ensures left[i] == Plus(second, Plus(mean, square))[i] {
      CentredTerm(y[i], mu);
    }
    assert left == Plus(second, Plus(mean, square));
    DotPlus(w, variances, Centred(y, mu));
    DotPlus(w, second, Plus(mean, square));
    DotPlus(w, mean, square);
    DotSym(w, mean);
    DotScale(-2.0 * mu, y, mean, w);
    DotSym(w, y);
    DotWithConstant(w, square, Times(mu, mu));
    TimesOne(Times(mu, mu));
    assert Times(-2.0 * mu, mu) == -2.0 * Times(mu, mu) by { MinusTwice(mu); }
  }

  lemma MinusTwice(mu: real)
    ensures Times(-2.0 * mu, mu) == -2.0 * Times(mu, mu)
  {
  }

  lemma CentredTerm(y: real, mu: real)
    ensures Times(y - mu, y - mu) == Times(y, y) + (Times(-2.0 * mu, y) + Times(mu, mu))
  {
  }

  lemma DotPlus(w: seq<real>, u: seq<real>, v: seq<real>)
    requires |w| == |u| == |v|
    ensures Dot(w, Plus(u, v)) == Dot(w, u) + Dot(w, v)
  {
    DotAdd(u, v, Plus(u, v), w);
    DotSym(w, Plus(u, v));
    DotSym(w, u);
    DotSym(w, v);
  }
}
