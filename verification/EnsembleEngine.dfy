/** The engine of the online ensemble: initial state, one bar of predicting and updating,
    and the runs made of such bars. */
module EnsembleEngine {
  import opened Results
  import opened Vectors
  import opened Simplex
  import opened MirrorDescent
  import opened ModelAveraging

  // ---- the initial state ----

  datatype InitFailure = ModelCount | VolatilityNotPositive | DsrShape

  /** Uniform weights, or a floored softmax of the given Sharpe ratios. */
  function InitialWeights(f: Functions, cfg: Config, k: nat, dsr: Option<seq<real>>): (w: seq<real>)
    requires f.Valid() && cfg.Valid() && k >= 1 && (dsr.Some? ==> |dsr.value| == k)
    ensures |w| == k && IsSimplex(w)
    ensures forall i :: 0 <= i < k ==> w[i] >= Floor(cfg.solver.floor, k)
  {
    match dsr
    case None =>
      UniformSimplex(k);
      NormaliseSimplex(Uniform(k));
      UniformAboveFloor(cfg.solver.floor, k);
      Normalise(Uniform(k))
    case Some(d) =>
      var e := Floor(cfg.solver.floor, k);
      var w := Softmax(f.exp, d);
      LaplaceMixesUniform(e, w);
      NormaliseSimplex(Laplace(e, w));
      Normalise(Laplace(e, w))
  }

  lemma UniformAboveFloor(eps: real, k: nat)
    requires eps > 0.0 && k >= 1
    ensures forall i :: 0 <= i < k ==> Uniform(k)[i] >= Floor(eps, k)
  {
    var e := Floor(eps, k);
    Quotient(1.0, k as real);
    if e > Over(1.0, k as real) {
      TimesStrict(k as real, Over(1.0, k as real), e);
    }
  }

  method InitializeState(f: Functions, cfg: Config, n: int, dsr: Option<seq<real>>, vol: real)
    returns (r: Result<State, InitFailure>)
    requires f.Valid() && cfg.Valid()
    ensures r.Ok? <==> n >= 1 && vol > 0.0 && (dsr.Some? ==> |dsr.value| == n)
    ensures r == Err(ModelCount) <==> n < 1
    ensures r == Err(VolatilityNotPositive) <==> n >= 1 && vol <= 0.0
    ensures r == Err(DsrShape) <==> n >= 1 && vol > 0.0 && dsr.Some? && |dsr.value| != n
    ensures r.Ok? ==>
      StateValid(r.value, n) && AboveFloor(cfg, r.value.weights) && r.value.step == 0 && r.value.meanVol == vol
    ensures r.Ok? ==> r.value.weights == InitialWeights(f, cfg, n, dsr)
    ensures r.Ok? ==> r.value.posteriors == [r.value.weights, r.value.weights, r.value.weights]
    ensures r.Ok? && dsr.None? ==> r.value.effective == n as real
    ensures r.Ok? ==> Times(r.value.effective, Dot(r.value.weights, r.value.weights)) == 1.0
    ensures r.Ok? ==> r.value.losses == Const(n, 0.0) && r.value.beta == 1.0
  {
    hide IsSimplex, Floor, Normalise, Laplace, Dot, Uniform, Functions.Valid;
    if n < 1 {
      return Err(ModelCount);
    }
    if vol <= 0.0 {
      return Err(VolatilityNotPositive);
    }
    if dsr.Some? && |dsr.value| != n {
      return Err(DsrShape);
    }
    var weights := InitialWeights(f, cfg, n, dsr);
    assert Positive(weights) by { FlooredPositive(weights, cfg.solver.floor); }
    var posteriors: seq<seq<real>> := [];
    for j := 0 to 3
      invariant |posteriors| == j && forall i :: 0 <= i < j ==> posteriors[i] == weights
    {
      posteriors := posteriors + [weights];
    }
    EffectiveModelsInRange(weights);
    Quotient(1.0, Dot(weights, weights));
    if dsr.None? {
      UniformSimplex(n);
      NormaliseSimplex(Uniform(n));
    }
    r := Ok(State(0, weights, posteriors, Const(n, 0.0), EffectiveModels(weights), vol, 1.0));
  }

  // ---- one bar ----

  /** A valid state and a bar the engine accepts for its models. */
  ghost predicate Ready(f: Functions, cfg: Config, s: State, b: Bar) {
    && f.Valid() && cfg.Valid()
    && StateValid(s, |b.predictions|) && Acceptable(b, |b.predictions|)
  }

  function TemperedRows(f: Functions, cfg: Config, s: State, b: Bar): (rows: seq<seq<real>>)
    requires Ready(f, cfg, s, b)
    ensures Rows(rows, |b.predictions|)
  {
    hide Tempered, Alpha, IsSimplex, Interior, Floor, Functions.Valid;
    var alpha := Alpha(cfg, s.meanVol, b.vol);
    seq(3, j requires 0 <= j < 3 => Tempered(f, s.posteriors[j], alpha))
  }

  function BarLosses(f: Functions, cfg: Config, b: Bar): (r: seq<real>)
    requires f.Valid() && Acceptable(b, |b.predictions|)
    ensures |r| == |b.predictions| && NonNeg(r)
  {
    Losses(cfg.downside, b.realized, Standardised(f, b.predictions, b.horizons))
  }

  function CorrelationOf(cfg: Config, b: Bar): (c: seq<seq<real>>)
    requires Acceptable(b, |b.predictions|)
    ensures SquareOf(c, |b.predictions|)
  {
    match b.correlation
    case None => Identity(|b.predictions|)
    case Some(c) => Regularised(cfg.ridge, c)
  }

  /** The scores of a bar, from its losses and the composite prior. */
  function BarScores(f: Functions, cfg: Config, s: State, b: Bar): (r: seq<real>)
    requires Ready(f, cfg, s, b)
    ensures |r| == |b.predictions|
  {
    Scores(f, BarLosses(f, cfg, b),
           CompositePrior(ForwardPrior(b.regimes, b.transition), TemperedRows(f, cfg, s, b), |b.predictions|))
  }

  /** The weights mirror descent settles on, before shrinkage and damping. */
  function Optimum(f: Functions, cfg: Config, s: State, b: Bar): (w: seq<real>)
    requires Ready(f, cfg, s, b)
    ensures |w| == |b.predictions| && IsSimplex(w)
  {
    Solution(f.exp, cfg.solver, BarScores(f, cfg, s, b), CorrelationOf(cfg, b), Some(s.weights))
  }

  /** What the damping is applied to: the optimum shrunk toward the uniform weights. */
  function Target(f: Functions, cfg: Config, s: State, b: Bar): (w: seq<real>)
    requires Ready(f, cfg, s, b)
    ensures |w| == |b.predictions| && IsSimplex(w)
  {
    Shrunk(ShrinkWeight(cfg, b), Optimum(f, cfg, s, b))
  }

  /** Damping toward the previous weights, then the floor. */
  function Moved(cfg: Config, target: seq<real>, previous: seq<real>): (w: seq<real>)
    requires cfg.Valid() && IsSimplex(target) && IsSimplex(previous) && |target| == |previous|
    ensures |w| == |target| && IsSimplex(w)
    ensures forall i :: 0 <= i < |w| ==> w[i] >= Floor(cfg.solver.floor, |w|)
  {
    hide IsSimplex, Damped, Floored, Mix, Uniform, Floor;
    Floored(cfg.solver.floor, Damped(cfg.churn, target, previous))
  }

  function NextWeights(f: Functions, cfg: Config, s: State, b: Bar): (w: seq<real>)
    requires Ready(f, cfg, s, b)
    ensures |w| == |b.predictions| && IsSimplex(w)
  {
    hide *;
    ReadyFacts(f, cfg, s, b);
    Moved(cfg, Target(f, cfg, s, b), s.weights)
  }

  lemma NextWeightsFloored(f: Functions, cfg: Config, s: State, b: Bar)
    requires Ready(f, cfg, s, b)
    ensures var w := NextWeights(f, cfg, s, b);
      |w| >= 1 && cfg.solver.floor > 0.0 && Positive(w)
      && forall i :: 0 <= i < |w| ==> w[i] >= Floor(cfg.solver.floor, |w|)
  {
    hide IsSimplex, Target, Moved, Floor, Positive, StateValid, Acceptable;
    ReadyFacts(f, cfg, s, b);
    FlooredPositive(NextWeights(f, cfg, s, b), cfg.solver.floor);
  }

  function NextPosteriors(f: Functions, cfg: Config, s: State, b: Bar): (rows: seq<seq<real>>)
    requires Ready(f, cfg, s, b)
    ensures |rows| == 3 && forall j :: 0 <= j < 3 ==> |rows[j]| == |b.predictions| && IsSimplex(rows[j])
  {
    hide TemperedRows, BarLosses, NextRow, Floor, Times, Sum, NonNeg, Positive;
    var rows := TemperedRows(f, cfg, s, b);
    var losses := BarLosses(f, cfg, b);
    var e := Floor(cfg.solver.floor, |b.predictions|);
    seq(3, j requires 0 <= j < 3 => NextRow(f, rows[j], b.regimes[j], losses, e))
  }

  /** The variance terms have the signs the prediction demands. */
  lemma EmittedIsValid(w: seq<real>, y: seq<real>, variances: seq<real>)
    requires IsSimplex(w) && Positive(w) && |w| == |y| == |variances| && Positive(variances)
    ensures Dot(w, variances) > 0.0 && Dot(w, Centred(y, Dot(w, y))) >= 0.0
    ensures Dot(w, w) > 0.0 && 1.0 <= EffectiveModels(w) <= |w| as real
    ensures Dot(w, variances) + Dot(w, Centred(y, Dot(w, y)))
         == Dot(w, Plus(variances, Mul(y, y))) - Times(Dot(w, y), Dot(w, y))
  {
    hide Times, Sum;
    forall i | 0 <= i < |w| ensures Mul(w, variances)[i] > 0.0 {
      PositiveProduct(w[i], variances[i]);
    }
    PositiveSum(Mul(w, variances));
    DotNonNeg(w, Centred(y, Dot(w, y)));
    EffectiveModelsInRange(w);
    TotalVariance(w, y, variances);
  }

  /** The probabilistic forecast of a weighting. */
  function Payload(w: seq<real>, y: seq<real>, variances: seq<real>, regimes: seq<real>, alpha: real,
                   shrink: real): (p: Prediction)
    requires IsSimplex(w) && Positive(w) && |w| == |y| == |variances| && Positive(variances)
    requires |regimes| == 3 && IsSimplex(regimes) && 0.0 < alpha < 1.0 && 0.0 <= shrink <= 1.0
    ensures PredictionValid(p, |w|)
  {
    hide IsSimplex, Positive, Dot, EffectiveModels, Centred, Plus, Mul, Times;
    EmittedIsValid(w, y, variances);
    var mu := Dot(w, y);
    var aleatoric, epistemic := Dot(w, variances), Dot(w, Centred(y, mu));
    Prediction(mu, aleatoric, epistemic, aleatoric + epistemic, w, regimes, EffectiveModels(w), alpha, shrink)
  }

  /** The law of total variance for what is emitted. */
  lemma PayloadVariance(w: seq<real>, y: seq<real>, variances: seq<real>, regimes: seq<real>, alpha: real, shrink: real)
    requires IsSimplex(w) && Positive(w) && |w| == |y| == |variances| && Positive(variances)
    requires |regimes| == 3 && IsSimplex(regimes) && 0.0 < alpha < 1.0 && 0.0 <= shrink <= 1.0
    ensures var p := Payload(w, y, variances, regimes, alpha, shrink);
      p.total == Dot(w, Plus(variances, Mul(y, y))) - Times(p.point, p.point)
  {
    hide Dot, Centred, Plus, Mul, Times;
    EmittedIsValid(w, y, variances);
  }

  lemma FlooredPositive(w: seq<real>, eps: real)
    requires |w| >= 1 && eps > 0.0 && forall i :: 0 <= i < |w| ==> w[i] >= Floor(eps, |w|)
    ensures Positive(w)
  {
    hide Floor;
  }

  /** What the bar emits, from its new weights. */
  function Emitted(f: Functions, cfg: Config, s: State, b: Bar): (p: Prediction)
    requires Ready(f, cfg, s, b)
  {
    hide *;
    ReadyFacts(f, cfg, s, b);
    var w := NextWeights(f, cfg, s, b);
    NextWeightsFloored(f, cfg, s, b);
    Payload(w, Standardised(f, b.predictions, b.horizons), b.variances, ForwardPrior(b.regimes, b.transition),
            Alpha(cfg, s.meanVol, b.vol), ShrinkWeight(cfg, b))
  }

  /** What a bar needs of its state and inputs, piece by piece. */
  lemma ReadyFacts(f: Functions, cfg: Config, s: State, b: Bar)
    requires Ready(f, cfg, s, b)
    ensures f.Valid() && cfg.Valid() && cfg.solver.floor > 0.0 && 0.0 < cfg.lowest && cfg.highest < 1.0
    ensures |b.predictions| >= 1 && |b.variances| == |b.predictions| && Positive(b.variances)
    ensures b.vol > 0.0 && b.beta > 0.0 && HorizonsFit(b.horizons, |b.predictions|)
    ensures Distribution(b.regimes, 3) && TransitionMatrix(b.transition) && Acceptable(b, |b.predictions|)
    ensures s.meanVol > 0.0 && |s.losses| == |b.predictions| && |s.weights| == |b.predictions|
    ensures IsSimplex(s.weights) && |s.posteriors| == 3 && |b.regimes| == 3
    ensures forall j :: 0 <= j < 3 ==> |s.posteriors[j]| == |b.predictions|
  {
    hide IsSimplex, Floor, CloseToOne, NonNeg, TransitionMatrix, Positive, HorizonsFit, SquareOf, Functions.Valid;
  }

  lemma SmoothedPositive(mean: real, vol: real)
    requires mean > 0.0 && vol > 0.0
    ensures Smoothed(SMOOTHING, mean, vol) > 0.0
  {
    SmoothedBetween(SMOOTHING, mean, vol, Min(mean, vol), Max(mean, vol));
  }

  /** A state assembled from floored weights and posteriors passes every check. */
  function Assembled(cfg: Config, step: nat, w: seq<real>, rows: seq<seq<real>>, losses: seq<real>, mean: real,
                     beta: real): (t: State)
    requires cfg.Valid() && IsSimplex(w) && forall i :: 0 <= i < |w| ==> w[i] >= Floor(cfg.solver.floor, |w|)
    requires |rows| == 3 && forall j :: 0 <= j < 3 ==> |rows[j]| == |w| && IsSimplex(rows[j])
    requires |losses| == |w| && mean > 0.0 && beta > 0.0
    ensures StateValid(t, |w|) && t.meanVol == mean
  {
    hide Floor, Dot, EffectiveModels;
    EffectiveModelsInRange(w);
    FlooredPositive(w, cfg.solver.floor);
    State(step, w, rows, losses, EffectiveModels(w), mean, beta)
  }

  function Advanced(f: Functions, cfg: Config, s: State, b: Bar): (t: State)
    requires Ready(f, cfg, s, b)
  {
    hide *;
    ReadyFacts(f, cfg, s, b);
    SmoothedPositive(s.meanVol, b.vol);
    NextWeightsFloored(f, cfg, s, b);
    Assembled(cfg, s.step + 1, NextWeights(f, cfg, s, b), NextPosteriors(f, cfg, s, b),
              Plus(s.losses, BarLosses(f, cfg, b)), Smoothed(SMOOTHING, s.meanVol, b.vol), b.beta)
  }

  lemma AdvancedParts(f: Functions, cfg: Config, s: State, b: Bar)
    requires Ready(f, cfg, s, b)
    ensures |s.losses| == |b.predictions| && |s.weights| == |b.predictions|
    ensures var t := Advanced(f, cfg, s, b);
      && t.weights == NextWeights(f, cfg, s, b)
      && t.meanVol == Smoothed(SMOOTHING, s.meanVol, b.vol)
      && t.losses == Plus(s.losses, BarLosses(f, cfg, b))
  {
    hide IsSimplex, NextWeights, NextPosteriors, BarLosses, Smoothed, Floor, StateValid, Plus, EffectiveModels;
    ReadyFacts(f, cfg, s, b);
    NextWeightsFloored(f, cfg, s, b);
  }

  /** Every prediction the engine can emit passes its constructor's checks, and its
      variance obeys the law of total variance. */
  lemma EmittedValid(f: Functions, cfg: Config, s: State, b: Bar)
    requires Ready(f, cfg, s, b)
    ensures PredictionValid(Emitted(f, cfg, s, b), |b.predictions|)
    ensures var y := Standardised(f, b.predictions, b.horizons);
      var p := Emitted(f, cfg, s, b);
      && p.weights == NextWeights(f, cfg, s, b) && p.point == Dot(p.weights, y)
      && p.total == Dot(p.weights, Plus(b.variances, Mul(y, y))) - Times(p.point, p.point)
  {
    hide IsSimplex, NextWeights, Standardised, ForwardPrior, Alpha, ShrinkWeight, Floor, StateValid, Positive, Dot,
         Centred, Plus, Mul, Times, EffectiveModels, Acceptable, Config.Valid, Functions.Valid;
    ReadyFacts(f, cfg, s, b);
    var w := NextWeights(f, cfg, s, b);
    NextWeightsFloored(f, cfg, s, b);
    PayloadVariance(w, Standardised(f, b.predictions, b.horizons), b.variances, ForwardPrior(b.regimes, b.transition),
                    Alpha(cfg, s.meanVol, b.vol), ShrinkWeight(cfg, b));
  }

  /** Every state the engine can reach passes its constructor's checks, and a single bar is
      enough to bring every weight to the floor or above it. */
  lemma AdvancedValid(f: Functions, cfg: Config, s: State, b: Bar)
    requires Ready(f, cfg, s, b)
    ensures StateValid(Advanced(f, cfg, s, b), |b.predictions|)
    ensures Advanced(f, cfg, s, b).step == s.step + 1
    ensures cfg.Valid() && |Advanced(f, cfg, s, b).weights| >= 1 && AboveFloor(cfg, Advanced(f, cfg, s, b).weights)
  {
    hide IsSimplex, NextWeights, NextPosteriors, BarLosses, Smoothed, Floor, StateValid, Plus, Acceptable,
         EffectiveModels;
    ReadyFacts(f, cfg, s, b);
    NextWeightsFloored(f, cfg, s, b);
  }

  // ---- better models ----

  /** Model i is at least as likely as j in every regime. */
  ghost predicate AtLeastAsLikely(f: Functions, cfg: Config, s: State, b: Bar, i: nat, j: nat)
    requires Ready(f, cfg, s, b)
  {
    && i < |b.predictions| && j < |b.predictions|
    && |s.posteriors| == 3
    && forall r :: 0 <= r < 3 ==>
         |s.posteriors[r]| == |b.predictions| && s.posteriors[r][i] >= s.posteriors[r][j]
  }

  /** From loss and posterior to score: a likelier model keeps every advantage its losses
      give it, so with no larger loss it never gets the higher score. */
  lemma BetterModelScoresLower(f: Functions, cfg: Config, s: State, b: Bar, i: nat, j: nat)
    requires Ready(f, cfg, s, b) && Increasing(f.exp) && IncreasingOnPositives(f.log)
    requires AtLeastAsLikely(f, cfg, s, b, i, j)
    ensures BarScores(f, cfg, s, b)[i] - BarLosses(f, cfg, b)[i] <= BarScores(f, cfg, s, b)[j] - BarLosses(f, cfg, b)[j]
    ensures BarLosses(f, cfg, b)[i] <= BarLosses(f, cfg, b)[j] ==>
      BarScores(f, cfg, s, b)[i] <= BarScores(f, cfg, s, b)[j]
  {
    hide Tempered, ForwardPrior, BarLosses, StateValid, Acceptable, Config.Valid, IsSimplex, Times, Sum, Interior,
         Alpha;
    ReadyFacts(f, cfg, s, b);
    var k := |b.predictions|;
    var alpha := Alpha(cfg, s.meanVol, b.vol);
    AlphaPositive(cfg, s.meanVol, b.vol);
    var rows := TemperedRows(f, cfg, s, b);
    forall r | 0 <= r < 3 ensures rows[r][i] >= rows[r][j] {
      PosteriorNonNeg(s, k, r, j);
      TemperedKeepsOrder(f, s.posteriors[r], alpha, i, j);
    }
    var p := ForwardPrior(b.regimes, b.transition);
    PriorKeepsOrder(p, rows, k, i, j);
    var prior := CompositePrior(p, rows, k);
    var lo, hi := Max(prior[j], TINY), Max(prior[i], TINY);
    assert f.log(lo) <= f.log(hi);
  }

  lemma PosteriorNonNeg(s: State, k: nat, r: nat, j: nat)
    requires StateValid(s, k) && r < 3 && j < k
    ensures |s.posteriors| == 3 && |s.posteriors[r]| == k && s.posteriors[r][j] >= 0.0
  {
  }

  lemma AlphaPositive(cfg: Config, mean: real, vol: real)
    requires cfg.Valid() && mean > 0.0
    ensures Alpha(cfg, mean, vol) >= 0.0
  {
  }

  lemma PriorKeepsOrder(p: seq<real>, rows: seq<seq<real>>, k: nat, i: nat, j: nat)
    requires |p| == 3 && IsSimplex(p) && Rows(rows, k) && i < k && j < k
    requires forall r :: 0 <= r < 3 ==> rows[r][i] >= rows[r][j]
    ensures CompositePrior(p, rows, k)[i] >= CompositePrior(p, rows, k)[j]
  {
    hide Times, Sum, Clipped, Normalise;
    BlendedIsInterior(p, rows, k);
    NormaliseSimplex(Clipped(Blended(p, rows, k)));
    TimesMonotone(p[0], rows[0][j], rows[0][i]);
    TimesMonotone(p[1], rows[1][j], rows[1][i]);
    TimesMonotone(p[2], rows[2][j], rows[2][i]);
  }

  /** The smaller loss of i makes up for its larger correlation with whichever model that
      is penalised most. */
  ghost predicate LossCoversPenalty(f: Functions, cfg: Config, b: Bar, i: nat, j: nat)
    requires f.Valid() && Acceptable(b, |b.predictions|) && i < |b.predictions| && j < |b.predictions|
  {
    forall k :: 0 <= k < |b.predictions| ==>
      BarLosses(f, cfg, b)[i] + Times(cfg.solver.penalty, CorrelationOf(cfg, b)[i][k])
      <= BarLosses(f, cfg, b)[j] + Times(cfg.solver.penalty, CorrelationOf(cfg, b)[j][k])
  }

  /** The engine rewards the better model: at least as likely, and with a loss advantage
      that covers the correlation penalty, its weight relative to the other never falls
      between the start and the end of the descent. */
  lemma BetterModelGains(f: Functions, cfg: Config, s: State, b: Bar, i: nat, j: nat)
    requires Ready(f, cfg, s, b) && Increasing(f.exp) && IncreasingOnPositives(f.log)
    requires AtLeastAsLikely(f, cfg, s, b, i, j) && LossCoversPenalty(f, cfg, b, i, j)
    ensures var scores := BarScores(f, cfg, s, b);
      && Posed(f.exp, cfg.solver, scores, CorrelationOf(cfg, b)) && Startable(Some(s.weights), |scores|)
      && var w := Start(Some(s.weights), |scores|);
         GainedOn(Descend(f.exp, cfg.solver, scores, CorrelationOf(cfg, b), w, cfg.solver.maxIter), w, i, j)
  {
    hide BarScores, CorrelationOf, Descend, Start, GainedOn, Tempered, BarLosses, Times;
    ReadyFacts(f, cfg, s, b);
    BetterModelScoresLower(f, cfg, s, b, i, j);
    UndercutGainsFromStart(f.exp, cfg.solver, BarScores(f, cfg, s, b), CorrelationOf(cfg, b), Some(s.weights), i, j);
  }

  // ---- runs ----

  ghost predicate AcceptableRun(bars: seq<Bar>, k: nat) {
    forall i :: 0 <= i < |bars| ==> Acceptable(bars[i], k)
  }

  /** The state after a run of accepted bars: every one of them valid, whatever the
      readings, the transcendental functions and the length of the run. */
  function Run(f: Functions, cfg: Config, s: State, bars: seq<Bar>): (t: State)
    requires f.Valid() && cfg.Valid() && StateValid(s, |s.weights|) && AcceptableRun(bars, |s.weights|)
    ensures StateValid(t, |s.weights|)
    ensures t.step == s.step + |bars|
  {
    hide StateValid, Acceptable, Config.Valid, Functions.Valid, Advanced;
    if bars == [] then s
    else
      var t := Run(f, cfg, s, bars[..|bars| - 1]);
      RunStep(f, cfg, t, bars[|bars| - 1], |s.weights|);
      Advanced(f, cfg, t, bars[|bars| - 1])
  }

  /** The volatility baseline never leaves the range of what it has seen. */
  lemma {:induction false} BaselineBetween(f: Functions, cfg: Config, s: State, bars: seq<Bar>, lo: real, hi: real)
    requires f.Valid() && cfg.Valid() && StateValid(s, |s.weights|) && AcceptableRun(bars, |s.weights|)
    requires lo <= s.meanVol <= hi && forall i :: 0 <= i < |bars| ==> lo <= bars[i].vol <= hi
    ensures lo <= Run(f, cfg, s, bars).meanVol <= hi
  {
    hide StateValid, Acceptable, Advanced, Smoothed, Functions.Valid, Config.Valid;
    if bars != [] {
      var n := |bars| - 1;
      BaselineBetween(f, cfg, s, bars[..n], lo, hi);
      RunLast(f, cfg, s, bars);
      AdvancedParts(f, cfg, Run(f, cfg, s, bars[..n]), bars[n]);
      SmoothedBetween(SMOOTHING, Run(f, cfg, s, bars[..n]).meanVol, bars[n].vol, lo, hi);
    }
  }

  lemma RunStep(f: Functions, cfg: Config, t: State, b: Bar, k: nat)
    requires f.Valid() && cfg.Valid() && StateValid(t, k) && Acceptable(b, k)
    ensures Ready(f, cfg, t, b) && |b.predictions| == k && |t.losses| == k && |t.weights| == k
    ensures StateValid(Advanced(f, cfg, t, b), k) && Advanced(f, cfg, t, b).step == t.step + 1
  {
    hide Config.Valid, Functions.Valid, Advanced, IsSimplex, Floor;
    AdvancedValid(f, cfg, t, b);
  }

  lemma RunLast(f: Functions, cfg: Config, s: State, bars: seq<Bar>)
    requires f.Valid() && cfg.Valid() && StateValid(s, |s.weights|) && AcceptableRun(bars, |s.weights|) && bars != []
    ensures var t := Run(f, cfg, s, bars[..|bars| - 1]);
      && Ready(f, cfg, t, bars[|bars| - 1]) && |t.losses| == |s.weights| && |t.weights| == |s.weights|
      && Run(f, cfg, s, bars) == Advanced(f, cfg, t, bars[|bars| - 1])
  {
    hide StateValid, Acceptable, Config.Valid, Functions.Valid, Advanced;
    RunStep(f, cfg, Run(f, cfg, s, bars[..|bars| - 1]), bars[|bars| - 1], |s.weights|);
  }

  /** After the first bar every weight of every run keeps the floor, wherever it started. */
  lemma {:induction false} RunAboveFloor(f: Functions, cfg: Config, s: State, bars: seq<Bar>)
    requires f.Valid() && cfg.Valid() && StateValid(s, |s.weights|) && AcceptableRun(bars, |s.weights|)
    requires bars != [] || (|s.weights| >= 1 && AboveFloor(cfg, s.weights))
    ensures |Run(f, cfg, s, bars).weights| == |s.weights| >= 1
    ensures AboveFloor(cfg, Run(f, cfg, s, bars).weights)
  {
    hide Acceptable, Advanced, Functions.Valid, Config.Valid, IsSimplex, Floor, AboveFloor;
    if bars != [] {
      RunLast(f, cfg, s, bars);
      AdvancedValid(f, cfg, Run(f, cfg, s, bars[..|bars| - 1]), bars[|bars| - 1]);
    }
  }

  /** Accumulated losses never fall. */
  lemma {:induction false} LossesAccumulate(f: Functions, cfg: Config, s: State, bars: seq<Bar>)
    requires f.Valid() && cfg.Valid() && StateValid(s, |s.weights|) && AcceptableRun(bars, |s.weights|)
    ensures |Run(f, cfg, s, bars).losses| == |s.losses| && AtMost(s.losses, Run(f, cfg, s, bars).losses)
  {
    hide Acceptable, Advanced, Smoothed, Functions.Valid, Config.Valid, IsSimplex, Floor, BarLosses;
    if bars != [] {
      var n := |bars| - 1;
      LossesAccumulate(f, cfg, s, bars[..n]);
      RunLast(f, cfg, s, bars);
      AdvancedParts(f, cfg, Run(f, cfg, s, bars[..n]), bars[n]);
    }
  }

  /** Turnover at every bar of every run. */
  lemma BarTurnover(f: Functions, cfg: Config, s: State, b: Bar)
    requires Ready(f, cfg, s, b)
    ensures var k := |b.predictions|;
      var l := Times(k as real, Floor(cfg.solver.floor, k));
      Change(Advanced(f, cfg, s, b).weights, s.weights)
      <= Times(1.0 - l, Times(1.0 - cfg.churn, Change(Target(f, cfg, s, b), s.weights)))
         + Times(l, Change(Uniform(k), s.weights))
  {
    hide Change, Times, Floor, Uniform, Floored, Damped, Mix, Target, IsSimplex, StateValid, BarLosses, Smoothed, Plus,
         Advanced;
    AdvancedParts(f, cfg, s, b);
    ReadyFacts(f, cfg, s, b);
    TurnoverBound(cfg.churn, cfg.solver.floor, Target(f, cfg, s, b), s.weights);
  }

  // ---- the engine ----

  lemma TemperedRowsAre(f: Functions, cfg: Config, s: State, b: Bar, rows: seq<seq<real>>)
    requires Ready(f, cfg, s, b) && |rows| == 3 && |s.posteriors| == 3 && s.meanVol > 0.0
    requires forall j :: 0 <= j < 3 ==>
      |s.posteriors[j]| >= 1 && rows[j] == Tempered(f, s.posteriors[j], Alpha(cfg, s.meanVol, b.vol))
    ensures rows == TemperedRows(f, cfg, s, b)
  {
    hide Tempered, Alpha, Ready, Config.Valid, Functions.Valid;
  }

  lemma NextPosteriorsAre(f: Functions, cfg: Config, s: State, b: Bar, rows: seq<seq<real>>)
    requires Ready(f, cfg, s, b) && |rows| == 3 && |b.regimes| == 3
    requires forall j :: 0 <= j < 3 ==>
      rows[j] == NextRow(f, TemperedRows(f, cfg, s, b)[j], b.regimes[j], BarLosses(f, cfg, b),
                         Floor(cfg.solver.floor, |b.predictions|))
    ensures rows == NextPosteriors(f, cfg, s, b)
  {
    hide NextRow, TemperedRows, BarLosses, Floor, Ready, Config.Valid, Functions.Valid;
  }

  /** What each check refuses. */
  ghost predicate Fails(b: Bar, k: nat, e: Rejection) {
    match e
    case NoModels => b.predictions == []
    case VarianceShape => |b.variances| != |b.predictions|
    case VarianceNotPositive => exists i :: 0 <= i < |b.variances| && b.variances[i] <= 0.0
    case StateShape => k != |b.predictions|
    case VolNotPositive => b.vol <= 0.0
    case BetaNotPositive => b.beta <= 0.0
    case RegimeProbs => !Distribution(b.regimes, 3)
    case Transition => |b.transition| != 3 || exists i :: 0 <= i < 3 && !Distribution(b.transition[i], 3)
    case Horizons =>
      b.horizons.Some?
      && (|b.horizons.value| != k || exists i :: 0 <= i < |b.horizons.value| && b.horizons.value[i] < 1.0)
    case CorrelationShape =>
      b.correlation.Some?
      && (|b.correlation.value| != k || exists i :: 0 <= i < |b.correlation.value| && |b.correlation.value[i]| != k)
  }

  /** The order of the checks. */
  function Place(e: Rejection): nat {
    match e
    case NoModels => 0
    case VarianceShape => 1
    case VarianceNotPositive => 2
    case StateShape => 3
    case VolNotPositive => 4
    case BetaNotPositive => 5
    case RegimeProbs => 6
    case Transition => 7
    case Horizons => 8
    case CorrelationShape => 9
  }

  class RegimeConditionedDMAEngine {
    const f: Functions
    const cfg: Config
    const tracker: VolatilityAdaptiveForgetting

    ghost predicate Valid()
      reads this, tracker
    {
      f.Valid() && cfg.Valid() && tracker.Valid() && tracker.cfg == cfg && tracker.rate == SMOOTHING
    }

    constructor (f: Functions, cfg: Config)
      requires f.Valid() && cfg.Valid()
      ensures Valid() && fresh(tracker) && this.f == f && this.cfg == cfg
      ensures tracker.mean == 0.01 && tracker.rate == 0.1
    {
      this.f := f;
      this.cfg := cfg;
      tracker := new VolatilityAdaptiveForgetting(cfg, 0.01, SMOOTHING);
    }

    /** One bar.  The tracker is overwritten from the state first, so nothing of an
        earlier call can leak into this one: the answer is a function of state and bar. */
    method PredictAndUpdate(b: Bar, s: State) returns (r: Result<(Prediction, State), Rejection>)
      requires Valid() && StateValid(s, |s.weights|)
      modifies tracker
      ensures Valid()
      ensures r.Ok? <==> Acceptable(b, |s.weights|)
      ensures r.Ok? ==> r.value == (Emitted(f, cfg, s, b), Advanced(f, cfg, s, b))
      ensures r.Ok? ==> tracker.mean == r.value.1.meanVol
    {
      hide Functions.Valid, Config.Valid, StateValid, Acceptable, Ready, IsSimplex, Floor, ForwardPrior, BarLosses,
           Standardised, Tempered, TemperedRows, ShrinkWeight, NextWeights, NextRow, NextPosteriors, Payload, Assembled,
           Plus, Alpha, Smoothed, Positive, NonNeg, HorizonsFit, Distribution, TransitionMatrix, SquareOf, Rows,
           Interior, PredictionValid;
      var k := |b.predictions|;
      var fault := Fault(b, |s.weights|);
      if fault.Some? {
        return Err(fault.value);
      }
      RunStep(f, cfg, s, b, |s.weights|);
      ReadyFacts(f, cfg, s, b);
      tracker.mean := s.meanVol;
      var forgetting := tracker.ComputeAlpha(b.vol);
      var alpha := forgetting.value;
      var regimes := ForwardPrior(b.regimes, b.transition);
      var losses := BarLosses(f, cfg, b);
      var y := Standardised(f, b.predictions, b.horizons);
      var tempered := TemperRows(s, alpha, k);
      TemperedRowsAre(f, cfg, s, b, tempered);
      var shrink := ShrinkWeight(cfg, b);
      var w := Reweigh(b, s, tempered, regimes, losses, shrink);
      NextWeightsFloored(f, cfg, s, b);
      SmoothedPositive(s.meanVol, b.vol);
      var posteriors := AdvancePosteriors(tempered, b.regimes, losses, k);
      NextPosteriorsAre(f, cfg, s, b, posteriors);
      var p := Payload(w, y, b.variances, regimes, alpha, shrink);
      var t := Assembled(cfg, s.step + 1, w, posteriors, Plus(s.losses, losses), tracker.mean, b.beta);
      assert p == Emitted(f, cfg, s, b);
      assert t == Advanced(f, cfg, s, b);
      r := Ok((p, t));
    }

    /** Scores, mirror descent, shrinkage, damping and floor. */
    method Reweigh(b: Bar, s: State, tempered: seq<seq<real>>, regimes: seq<real>, losses: seq<real>, shrink: real)
      returns (w: seq<real>)
      requires Ready(f, cfg, s, b) && tempered == TemperedRows(f, cfg, s, b)
      requires Distribution(b.regimes, 3) && TransitionMatrix(b.transition)
      requires regimes == ForwardPrior(b.regimes, b.transition) && losses == BarLosses(f, cfg, b)
      requires cfg.Valid() && shrink == ShrinkWeight(cfg, b)
      ensures w == NextWeights(f, cfg, s, b)
    {
      hide Functions.Valid, Config.Valid, StateValid, IsSimplex, Floor, ForwardPrior, BarLosses, TemperedRows,
           CompositePrior, Scores, CorrelationOf, Solution, ShrinkWeight, Shrunk, Moved, Posed, Startable, Acceptable,
           Rows, Interior;
      ReadyFacts(f, cfg, s, b);
      var k := |b.predictions|;
      var scores := Scores(f, losses, CompositePrior(regimes, tempered, k));
      var solved := Solved(s, scores, CorrelationOf(cfg, b), k);
      w := Moved(cfg, Shrunk(shrink, solved), s.weights);
    }

    method TemperRows(s: State, alpha: real, k: nat) returns (rows: seq<seq<real>>)
      requires f.Valid() && |s.posteriors| == 3 && k >= 1 && forall j :: 0 <= j < 3 ==> |s.posteriors[j]| == k
      ensures |rows| == 3 && Rows(rows, k) && forall j :: 0 <= j < 3 ==> |rows[j]| == k
      ensures forall j :: 0 <= j < 3 ==> rows[j] == Tempered(f, s.posteriors[j], alpha)
    {
      hide Tempered, Interior, Functions.Valid;
      rows := [];
      for j := 0 to 3
        invariant |rows| == j
        invariant forall i :: 0 <= i < j ==> rows[i] == Tempered(f, s.posteriors[i], alpha) && Interior(rows[i], k)
      {
        rows := rows + [Tempered(f, s.posteriors[j], alpha)];
      }
    }

    /** Conditions each regime's posterior on the bar's losses and floors it, row by row. */
    method AdvancePosteriors(tempered: seq<seq<real>>, regimes: seq<real>, losses: seq<real>, k: nat)
      returns (rows: seq<seq<real>>)
      requires f.Valid() && cfg.Valid() && k >= 1 && |losses| == k && |regimes| == 3
      requires |tempered| == 3 && forall j :: 0 <= j < 3 ==> |tempered[j]| == k
      ensures |rows| == 3
      ensures forall j :: 0 <= j < 3 ==>
        |rows[j]| == k && IsSimplex(rows[j])
        && rows[j] == NextRow(f, tempered[j], regimes[j], losses, Floor(cfg.solver.floor, k))
    {
      hide NextRow, IsSimplex, Functions.Valid, Floor;
      var e := Floor(cfg.solver.floor, k);
      rows := [];
      for j := 0 to 3
        invariant |rows| == j
        invariant forall i :: 0 <= i < j ==>
          |rows[i]| == k && IsSimplex(rows[i]) && rows[i] == NextRow(f, tempered[i], regimes[i], losses, e)
      {
        rows := rows + [NextRow(f, tempered[j], regimes[j], losses, e)];
      }
    }

    /** The first check the bar fails, in the order they are made. */
    method Fault(b: Bar, k: nat) returns (fault: Option<Rejection>)
      requires f.Valid()
      ensures fault.None? <==> Acceptable(b, k)
      ensures fault.Some? ==> Fails(b, k, fault.value)
      ensures fault.Some? ==> forall e :: Place(e) < Place(fault.value) ==> !Fails(b, k, e)
    {
      hide Distribution, Functions.Valid;
      if b.predictions == [] {
        return Some(NoModels);
      }
      if |b.variances| != |b.predictions| {
        return Some(VarianceShape);
      }
      if i :| 0 <= i < |b.variances| && b.variances[i] <= 0.0 {
        return Some(VarianceNotPositive);
      }
      if k != |b.predictions| {
        return Some(StateShape);
      }
      if b.vol <= 0.0 {
        return Some(VolNotPositive);
      }
      if b.beta <= 0.0 {
        return Some(BetaNotPositive);
      }
      var fine := IsDistribution(b.regimes);
      if !fine {
        return Some(RegimeProbs);
      }
      if |b.transition| != 3 {
        return Some(Transition);
      }
      for row := 0 to 3
        invariant forall i :: 0 <= i < row ==> Distribution(b.transition[i], 3)
      {
        fine := IsDistribution(b.transition[row]);
        if !fine {
          return Some(Transition);
        }
      }
      if b.horizons.Some? {
        if |b.horizons.value| != k {
          return Some(Horizons);
        }
        if i :| 0 <= i < k && b.horizons.value[i] < 1.0 {
          return Some(Horizons);
        }
      }
      if b.correlation.Some? && !SquareOf(b.correlation.value, k) {
        return Some(CorrelationShape);
      }
      fault := None;
    }

    method IsDistribution(p: seq<real>) returns (fine: bool)
      ensures fine <==> Distribution(p, 3)
      ensures fine <==>
        |p| == 3 && NonNeg(p) && Abs(Sum(p) - 1.0) <= 0.000000001 * (if Sum(p) > 1.0 then Sum(p) else 1.0)
    {
      hide Sum;
      if |p| != 3 {
        return false;
      }
      if i :| 0 <= i < 3 && p[i] < 0.0 {
        return false;
      }
      fine := CloseToOne(Sum(p));
    }

    /** The solver called on the current weights; with a valid state it cannot refuse. */
    method Solved(s: State, scores: seq<real>, c: seq<seq<real>>, k: nat) returns (w: seq<real>)
      requires f.Valid() && cfg.Valid() && StateValid(s, k) && |scores| == k && SquareOf(c, k)
      ensures |w| == k && IsSimplex(w)
      ensures Posed(f.exp, cfg.solver, scores, c) && Startable(Some(s.weights), k)
      ensures w == Solution(f.exp, cfg.solver, scores, c, Some(s.weights))
    {
      hide Solution, Floor;
      var solved := Solve(f.exp, cfg.solver, scores, c, Some(s.weights));
      w := solved.value;
    }
  }
}
