/** DynamicTripleBarrierLabeler: causal range volatility, the first-touch scan between
    two horizontal barriers and a horizon, and the labels made of them. */
module Labeling {
  import opened Results
  import opened Rounding
  import opened Vectors

  /** Logarithm, exponential and square root; only the sign of log 2 is ever used. */
  datatype Functions = Functions(log: real -> real, exp: real -> real, sqrt: real -> real) {
    predicate Valid() { log(2.0) > 0.0 }
  }

  datatype Side = Long | Short | Unsigned

  datatype Reason = Upper | Lower | Vertical | CollisionStop

  datatype Config = Config(profit: real, stop: real, horizon: nat, window: nat, floor: real, cap: real, spread: real,
                           fee: real, tick: Option<real>, logBarriers: bool, scaleByHorizon: bool, pessimistic: bool,
                           delay: nat, signExpiration: bool)
  {
    predicate Valid() {
      && profit > 0.0 && stop > 0.0 && horizon >= 1 && window >= 2 && 0.0 < floor <= cap
      && spread >= 0.0 && fee >= 0.0 && (tick.Some? ==> tick.value > 0.0)
    }
  }

  datatype Series = Series(times: seq<int>, opens: seq<real>, highs: seq<real>, lows: seq<real>, closes: seq<real>) {
    predicate Aligned() { |opens| == |highs| == |lows| == |closes| == |times| }
  }

  datatype Label = Label(eventTime: int, entryTime: int, exitTime: int, entryPrice: real, exitPrice: real, side: Side,
                         outcome: int, net: real, reason: Reason, holding: nat, volatility: real, upper: real,
                         lower: real)

  // ---- causal volatility ----

  ghost predicate GoodRanges(highs: seq<real>, lows: seq<real>) {
    && |highs| == |lows|
    && forall i :: 0 <= i < |highs| ==> 0.0 < lows[i] <= highs[i]
  }

  ghost predicate PositivePrices(highs: seq<real>, lows: seq<real>)
    requires |highs| == |lows|
  {
    forall i :: 0 <= i < |highs| ==> highs[i] > 0.0 && lows[i] > 0.0
  }

  function SquaredRange(f: Functions, high: real, low: real): real
    requires low > 0.0
  {
    Times(f.log(Over(high, low)), f.log(Over(high, low)))
  }

  /** The squared log ranges of the bars from..from+count-1. */
  function Ranges(f: Functions, highs: seq<real>, lows: seq<real>, from: nat, count: nat): (r: seq<real>)
    requires GoodRanges(highs, lows) && from + count <= |highs|
    ensures |r| == count
    ensures forall i :: 0 <= i < count ==> r[i] == SquaredRange(f, highs[from + i], lows[from + i])
  {
    seq(count, i requires 0 <= i < count => SquaredRange(f, highs[from + i], lows[from + i]))
  }

  /** The volatility of one window of bars. */
  function WindowVolatility(f: Functions, highs: seq<real>, lows: seq<real>, window: nat, from: nat): real
    requires f.Valid() && window >= 2 && GoodRanges(highs, lows) && from + window <= |highs|
  {
    PositiveProduct(f.log(2.0), window as real);
    var scale := Over(1.0, 4.0 * Times(f.log(2.0), window as real));
    f.sqrt(Max(0.0, Times(Sum(Ranges(f, highs, lows, from, window)), scale)))
  }

  /** The volatility known at bar t: that of the window ending one bar earlier, and zero
      while there is none. */
  function CausalVolatility(f: Functions, highs: seq<real>, lows: seq<real>, window: nat, t: nat): real
    requires f.Valid() && window >= 2 && GoodRanges(highs, lows) && t < |highs|
  {
    if t < window then 0.0 else WindowVolatility(f, highs, lows, window, t - window)
  }

  datatype RangeFailure = LengthMismatch | WindowTooShort | PriceNotPositive | HighBelowLow | EmptyArrays

  /** The lagged volatility series: the rolling windows, shifted by one bar into an array
      of zeros. */
  method ComputeParkinsonVolatility(f: Functions, highs: seq<real>, lows: seq<real>, window: nat)
    returns (r: Result<seq<real>, RangeFailure>)
    requires f.Valid()
    ensures r == Err(LengthMismatch) <==> |highs| != |lows|
    ensures r == Err(WindowTooShort) <==> |highs| == |lows| && window < 2
    ensures r == Err(PriceNotPositive) <==> |highs| == |lows| && window >= 2 && !PositivePrices(highs, lows)
    ensures r == Err(HighBelowLow) <==>
      |highs| == |lows| && window >= 2 && PositivePrices(highs, lows) && !GoodRanges(highs, lows)
    ensures r == Err(EmptyArrays) <==> highs == lows == [] && window >= 2
    ensures r.Ok? <==> window >= 2 && GoodRanges(highs, lows) && highs != []
    ensures r.Ok? ==> |r.value| == |highs|
    ensures r.Ok? ==> forall t :: 0 <= t < |highs| ==> r.value[t] == CausalVolatility(f, highs, lows, window, t)
  {
    hide WindowVolatility;
    var n := |highs|;
    if n != |lows| {
      return Err(LengthMismatch);
    }
    if window < 2 {
      return Err(WindowTooShort);
    }
    if i :| 0 <= i < n && (highs[i] <= 0.0 || lows[i] <= 0.0) {
      return Err(PriceNotPositive);
    }
    if i :| 0 <= i < n && highs[i] < lows[i] {
      return Err(HighBelowLow);
    }
    if n == 0 {
      return Err(EmptyArrays);
    }
    var rawCount := if n >= window then n - window + 1 else 0;
    var raw := seq(rawCount, j requires 0 <= j < rawCount => WindowVolatility(f, highs, lows, window, j));
    var causal := new real[n](_ => 0.0);
    var destEnd := if window + |raw| <= n then window + |raw| else n;
    var srcLen := destEnd - window;
    if srcLen > 0 {
      forall j | 0 <= j < srcLen {
        causal[window + j] := raw[j];
      }
    }
    r := Ok(causal[..]);
  }

  // ---- barriers ----

  /** The volatility in force: clamped, and scaled to the horizon when configured. */
  function Sigma(cfg: Config, raw: real): real { Max(cfg.floor, Min(cfg.cap, raw)) }

  function EffectiveSigma(f: Functions, cfg: Config, sigma: real): real {
    if cfg.scaleByHorizon then Times(sigma, f.sqrt(cfg.horizon as real)) else sigma
  }

  /** How far above and below the entry price the barriers lie: a short position swaps
      profit and stop. */
  function Above(cfg: Config, side: Side): real { if side.Short? then cfg.stop else cfg.profit }

  function Below(cfg: Config, side: Side): real { if side.Short? then cfg.profit else cfg.stop }

  function OnGrid(cfg: Config, level: real): real
    requires cfg.Valid()
  {
    if cfg.tick.Some? then Times(RoundHalfEven(Over(level, cfg.tick.value)) as real, cfg.tick.value) else level
  }

  function UpperLevel(f: Functions, cfg: Config, side: Side, price: real, sigma: real): real
    requires cfg.Valid()
  {
    var width := Times(Above(cfg, side), EffectiveSigma(f, cfg, sigma));
    OnGrid(cfg, if cfg.logBarriers then f.exp(f.log(price) + width) else Times(price, 1.0 + width))
  }

  function LowerLevel(f: Functions, cfg: Config, side: Side, price: real, sigma: real): real
    requires cfg.Valid()
  {
    var width := Times(Below(cfg, side), EffectiveSigma(f, cfg, sigma));
    OnGrid(cfg, if cfg.logBarriers then f.exp(f.log(price) - width) else Times(price, 1.0 - width))
  }

  /** price is the level itself or, on a grid, the tick nearest to it, ties to the even one. */
  ghost predicate OnTicks(cfg: Config, level: real, price: real)
    requires cfg.Valid()
  {
    match cfg.tick
    case None => price == level
    case Some(tick) => exists k: int :: IsRounded(Over(level, tick), k) && price == Times(k as real, tick)
  }

  /** Quantising puts a level on the tick grid and moves it by at most half a tick. */
  lemma GridNear(cfg: Config, level: real)
    requires cfg.Valid()
    ensures OnTicks(cfg, level, OnGrid(cfg, level))
    ensures cfg.tick.None? ==> OnGrid(cfg, level) == level
    ensures cfg.tick.Some? ==> Abs(OnGrid(cfg, level) - level) <= Times(0.5, cfg.tick.value)
  {
    hide Times, Over;
    if cfg.tick.Some? {
      var tick := cfg.tick.value;
      var ratio := Over(level, tick);
      RoundHalfEvenIff(ratio, RoundHalfEven(ratio));
      var r := RoundHalfEven(ratio) as real;
      Quotient(level, tick);
      TimesSym(tick, r);
      TimesSym(tick, ratio);
      TimesSym(tick, 0.5);
      TimesMonotone(tick, ratio - 0.5, r);
      TimesMonotone(tick, r, ratio + 0.5);
      Distribute(tick, ratio, 0.5);
      Distribute(tick, ratio, -0.5);
      NegatedFactor(tick, 0.5);
    }
  }

  /** Logarithmic barriers are geometrically symmetric: with equal multipliers the entry
      price is the geometric mean of the two levels. */
  lemma LogBarriersSymmetric(f: Functions, cfg: Config, side: Side, price: real, sigma: real)
    requires cfg.Valid() && cfg.logBarriers && cfg.tick.None? && cfg.profit == cfg.stop
    requires f.exp(f.log(price)) == price && f.exp(0.0) == 1.0
    requires forall x, y :: f.exp(x + y) == Times(f.exp(x), f.exp(y))
    ensures Times(UpperLevel(f, cfg, side, price, sigma), LowerLevel(f, cfg, side, price, sigma)) == Times(price, price)
  {
    hide Times;
    var p, w := f.log(price), Times(cfg.profit, EffectiveSigma(f, cfg, sigma));
    assert f.exp(p + w) == Times(price, f.exp(w));
    assert f.exp(p + -w) == Times(price, f.exp(-w));
    assert f.exp(w + -w) == Times(f.exp(w), f.exp(-w));
    assert p + -w == p - w && w + -w == 0.0;
    FourFactors(price, f.exp(w), f.exp(-w));
  }

  /** The barriers of a short position are those of a long one with profit and stop
      multipliers exchanged, and both pairs enclose the entry price. */
  lemma ShortExchangesMultipliers(f: Functions, cfg: Config, price: real, sigma: real)
    requires cfg.Valid() && price > 0.0 && EffectiveSigma(f, cfg, sigma) >= 0.0 && cfg.tick.None?
    requires f.exp(f.log(price)) == price && forall x, y :: x <= y ==> f.exp(x) <= f.exp(y)
    ensures var swapped := cfg.(profit := cfg.stop, stop := cfg.profit);
      && UpperLevel(f, cfg, Short, price, sigma) == UpperLevel(f, swapped, Long, price, sigma)
      && LowerLevel(f, cfg, Short, price, sigma) == LowerLevel(f, swapped, Long, price, sigma)
    ensures forall side :: LowerLevel(f, cfg, side, price, sigma) <= price <= UpperLevel(f, cfg, side, price, sigma)
  {
    hide Times;
    var w := EffectiveSigma(f, cfg, sigma);
    assert EffectiveSigma(f, cfg.(profit := cfg.stop, stop := cfg.profit), sigma) == w;
    forall side ensures LowerLevel(f, cfg, side, price, sigma) <= price <= UpperLevel(f, cfg, side, price, sigma) {
      NonNegProduct(Above(cfg, side), w);
      NonNegProduct(Below(cfg, side), w);
      Enclosed(f, price, Times(Above(cfg, side), w), Times(Below(cfg, side), w));
    }
  }

  lemma Enclosed(f: Functions, price: real, up: real, down: real)
    requires price > 0.0 && up >= 0.0 && down >= 0.0
    requires f.exp(f.log(price)) == price && forall x, y :: x <= y ==> f.exp(x) <= f.exp(y)
    ensures f.exp(f.log(price) - down) <= price <= f.exp(f.log(price) + up)
    ensures Times(price, 1.0 - down) <= price <= Times(price, 1.0 + up)
  {
    var p := f.log(price);
    assert f.exp(p - down) <= f.exp(p) <= f.exp(p + up);
    TimesMonotone(price, 1.0 - down, 1.0);
    TimesMonotone(price, 1.0, 1.0 + up);
    TimesOne(price);
  }

  lemma FourFactors(p: real, a: real, b: real)
    requires Times(a, b) == 1.0
    ensures Times(Times(p, a), Times(p, b)) == Times(p, p)
  {
    assert Times(Times(p, a), Times(p, b)) == Times(Times(p, p), Times(a, b));
  }

  // ---- the scan ----

  datatype Exit = Exit(idx: nat, price: real, reason: Reason)

  /** Bar k meets a barrier: by its open, its high or its low. */
  ghost predicate Touches(s: Series, upper: real, lower: real, k: nat)
    requires s.Aligned() && k < |s.times|
  {
    s.opens[k] >= upper || s.opens[k] <= lower || s.highs[k] >= upper || s.lows[k] <= lower
  }

  /** How a bar that meets a barrier is settled: the open first, then both barriers at
      once, then one of them. */
  function Settle(cfg: Config, side: Side, s: Series, upper: real, lower: real, k: nat): Option<Exit>
    requires s.Aligned() && k < |s.times|
  {
    if s.opens[k] >= upper then Some(Exit(k, s.opens[k], Upper))
    else if s.opens[k] <= lower then Some(Exit(k, s.opens[k], Lower))
    else if s.highs[k] >= upper && s.lows[k] <= lower then
      if cfg.pessimistic then Some(Exit(k, if side.Short? then upper else lower, CollisionStop))
      else Some(Exit(k, upper, Upper))
    else if s.highs[k] >= upper then Some(Exit(k, upper, Upper))
    else if s.lows[k] <= lower then Some(Exit(k, lower, Lower))
    else None
  }

  /** The exit found by looking at the bars from k to last. */
  function Scan(cfg: Config, side: Side, s: Series, upper: real, lower: real, k: nat, last: nat): (e: Exit)
    requires s.Aligned() && k <= last + 1 && last < |s.times|
    decreases last + 1 - k
  {
    if k == last + 1 then Exit(last, s.closes[last], Vertical)
    else
      match Settle(cfg, side, s, upper, lower, k)
      case Some(e) => e
      case None => Scan(cfg, side, s, upper, lower, k + 1, last)
  }

  /** The bar-by-bar loop with its breaks. */
  method FindExit(cfg: Config, side: Side, s: Series, upper: real, lower: real, entry: nat, last: nat) returns (e: Exit)
    requires s.Aligned() && entry <= last < |s.times|
    ensures e == Scan(cfg, side, s, upper, lower, entry, last)
  {
    var exitIdx, exitPrice, reason := last, s.closes[last], Vertical;
    var k := entry;
    while k <= last
      invariant entry <= k <= last + 1
      invariant Scan(cfg, side, s, upper, lower, entry, last) == Scan(cfg, side, s, upper, lower, k, last)
      invariant exitIdx == last && exitPrice == s.closes[last] && reason == Vertical
    {
      var open, high, low := s.opens[k], s.highs[k], s.lows[k];
      if open >= upper {
        return Exit(k, open, Upper);
      }
      if open <= lower {
        return Exit(k, open, Lower);
      }
      var upperTouched, lowerTouched := high >= upper, low <= lower;
      if upperTouched && lowerTouched {
        if cfg.pessimistic {
          return Exit(k, if side.Short? then upper else lower, CollisionStop);
        } else {
          return Exit(k, upper, Upper);
        }
      }
      if upperTouched {
        return Exit(k, upper, Upper);
      }
      if lowerTouched {
        return Exit(k, lower, Lower);
      }
      k := k + 1;
    }
    e := Exit(exitIdx, exitPrice, reason);
  }

  /** The exit is at the first bar that meets a barrier, settled by that bar's own rule, or
      at the horizon when none does. */
  lemma {:induction false} ExitIsFirstTouch(cfg: Config, side: Side, s: Series, upper: real, lower: real, k: nat,
                                            last: nat)
    requires s.Aligned() && k <= last < |s.times|
    ensures var e := Scan(cfg, side, s, upper, lower, k, last);
      && k <= e.idx <= last
      && (forall j: nat | k <= j < e.idx :: !Touches(s, upper, lower, j))
      && (!e.reason.Vertical? <==> Touches(s, upper, lower, e.idx))
      && (!e.reason.Vertical? ==> Settle(cfg, side, s, upper, lower, e.idx) == Some(e))
      && (e.reason.Vertical? ==> e.idx == last && e.price == s.closes[last])
    decreases last - k
  {
    if Settle(cfg, side, s, upper, lower, k).None? && k < last {
      ExitIsFirstTouch(cfg, side, s, upper, lower, k + 1, last);
    }
  }

  /** An exit lies at or beyond the barrier it names: an upper exit at or
      above it, a lower one at or below it, a collision exactly at the stop. */
  lemma {:induction false} ExitBeyondBarrier(cfg: Config, side: Side, s: Series, upper: real, lower: real, k: nat,
                                             last: nat)
    requires s.Aligned() && k <= last < |s.times|
    ensures var e := Scan(cfg, side, s, upper, lower, k, last);
      && (e.reason.Upper? ==> e.price >= upper)
      && (e.reason.Lower? ==> e.price <= lower)
      && (e.reason.CollisionStop? ==> cfg.pessimistic && e.price == if side.Short? then upper else lower)
  {
    hide Scan, Touches;
    ExitIsFirstTouch(cfg, side, s, upper, lower, k, last);
  }

  /** Bar k opens strictly between the barriers and then reaches both of them. */
  predicate Straddles(s: Series, upper: real, lower: real, k: nat)
    requires s.Aligned() && k < |s.times|
  {
    lower < s.opens[k] < upper && s.highs[k] >= upper && s.lows[k] <= lower
  }

  /** The first bar from entry to last that meets a barrier reaches both. */
  ghost predicate CollidesFirst(s: Series, upper: real, lower: real, entry: nat, last: nat)
    requires s.Aligned() && entry <= last < |s.times|
  {
    exists k: nat :: entry <= k <= last && Straddles(s, upper, lower, k)
      && forall j: nat :: entry <= j < k ==> !Touches(s, upper, lower, j)
  }

  /** A collision is reported exactly when the policy is pessimistic and the first bar that
      meets a barrier reaches both; the bar of entry then opens strictly between them. */
  lemma {:induction false} CollisionIff(cfg: Config, side: Side, s: Series, upper: real, lower: real, entry: nat,
                                        last: nat)
    requires s.Aligned() && entry <= last < |s.times|
    ensures var e := Scan(cfg, side, s, upper, lower, entry, last);
      e.reason.CollisionStop? <==> cfg.pessimistic && CollidesFirst(s, upper, lower, entry, last)
    ensures CollidesFirst(s, upper, lower, entry, last) ==> lower < s.opens[entry] < upper
  {
    hide Scan;
    ExitIsFirstTouch(cfg, side, s, upper, lower, entry, last);
    var e := Scan(cfg, side, s, upper, lower, entry, last);
    assert e.reason.CollisionStop? ==> Straddles(s, upper, lower, e.idx);
    if CollidesFirst(s, upper, lower, entry, last) {
      var k: nat :| entry <= k <= last && Straddles(s, upper, lower, k)
        && forall j: nat :: entry <= j < k ==> !Touches(s, upper, lower, j);
      assert Touches(s, upper, lower, k);
      assert e.idx == k;
      assert entry < k ==> !Touches(s, upper, lower, entry);
    }
  }

  /** The two series show the same bars from lo to hi. */
  ghost predicate Agree(s: Series, t: Series, lo: nat, hi: nat)
    requires s.Aligned() && t.Aligned()
  {
    && hi < |s.times| && hi < |t.times|
    && forall k :: lo <= k <= hi ==>
         s.times[k] == t.times[k] && s.opens[k] == t.opens[k] && s.highs[k] == t.highs[k]
         && s.lows[k] == t.lows[k] && s.closes[k] == t.closes[k]
  }

  /** A scan depends on nothing after its exit. */
  lemma {:induction false} ScanIsCausal(cfg: Config, side: Side, s: Series, t: Series, upper: real, lower: real, k: nat,
                                        last: nat, other: nat)
    requires s.Aligned() && t.Aligned() && k <= last + 1 && last < |s.times| && k <= other + 1 && other < |t.times|
    requires var e := Scan(cfg, side, s, upper, lower, k, last);
      && Agree(s, t, k, e.idx)
      && (if e.reason.Vertical? then other == last && s.closes[last] == t.closes[last] else e.idx <= other)
    ensures Scan(cfg, side, t, upper, lower, k, other) == Scan(cfg, side, s, upper, lower, k, last)
    decreases last + 1 - k
  {
    if k <= last {
      if Settle(cfg, side, s, upper, lower, k).None? {
        ScanAhead(cfg, side, s, upper, lower, k, last);
        assert Settle(cfg, side, t, upper, lower, k).None?;
        ScanIsCausal(cfg, side, s, t, upper, lower, k + 1, last, other);
      }
    }
  }

  lemma {:induction false} ScanAhead(cfg: Config, side: Side, s: Series, upper: real, lower: real, k: nat, last: nat)
    requires s.Aligned() && k <= last < |s.times|
    ensures k <= Scan(cfg, side, s, upper, lower, k, last).idx <= last
    decreases last - k
  {
    if k < last && Settle(cfg, side, s, upper, lower, k).None? {
      ScanAhead(cfg, side, s, upper, lower, k + 1, last);
    }
  }

  // ---- one event ----

  predicate LongEnough(cfg: Config, s: Series) {
    s.Aligned() && |s.times| >= cfg.window + cfg.horizon + cfg.delay
  }

  /** Everything the labeler checks of a series before it labels anything. */
  ghost predicate Usable(cfg: Config, s: Series) {
    LongEnough(cfg, s) && GoodRanges(s.highs, s.lows)
  }

  /** The last bar of the horizon, or of the series. */
  function LastBar(cfg: Config, s: Series, entry: nat): nat
    requires entry < |s.times|
  {
    if entry + cfg.horizon <= |s.times| - 1 then entry + cfg.horizon else |s.times| - 1
  }

  function Friction(cfg: Config): real { Times(cfg.spread + cfg.fee, 0.0001) }

  function EffectiveEntry(cfg: Config, side: Side, price: real): real {
    match side
    case Long => Times(price, 1.0 + Friction(cfg))
    case Short => Times(price, 1.0 - Friction(cfg))
    case Unsigned => price
  }

  /** The return before costs: a short position gains when the price falls, an unsigned one
      from any move. */
  function GrossReturn(side: Side, price: real, exit: real): real
    requires price > 0.0
  {
    var raw := Over(exit - price, price);
    match side case Long => raw case Short => -raw case Unsigned => Abs(raw)
  }

  /** The return after the round trip. */
  function NetReturn(cfg: Config, side: Side, price: real, exit: real): real
    requires price > 0.0
  {
    GrossReturn(side, price, exit) - 2.0 * Friction(cfg)
  }

  /** The label as the source assigns it: sides are told apart by the barrier's name, so
      a collision on a short position counts as its lower barrier. */
  function Outcome(cfg: Config, side: Side, reason: Reason, net: real): int {
    match reason
    case Upper => if side.Short? then -1 else 1
    case Lower => if side.Short? then 1 else -1
    case CollisionStop => if side.Short? then 1 else -1
    case Vertical =>
      if !cfg.signExpiration then 0 else if net > 0.0 then 1 else if net < 0.0 then -1 else 0
  }

  /** The event has an entry bar inside the series with a positive open. */
  predicate Tradable(cfg: Config, s: Series, event: int)
    requires s.Aligned()
  {
    0 <= event && event + cfg.delay < |s.times| && s.opens[event + cfg.delay] > 0.0
  }

  function EntrySigma(f: Functions, cfg: Config, s: Series, entry: nat): real
    requires f.Valid() && cfg.Valid() && Usable(cfg, s) && entry < |s.times|
  {
    Sigma(cfg, CausalVolatility(f, s.highs, s.lows, cfg.window, entry))
  }

  function ExitOf(f: Functions, cfg: Config, s: Series, event: nat, side: Side): (e: Exit)
    requires f.Valid() && cfg.Valid() && Usable(cfg, s) && Tradable(cfg, s, event)
  {
    var entry := event + cfg.delay;
    var sigma := EntrySigma(f, cfg, s, entry);
    Scan(cfg, side, s, UpperLevel(f, cfg, side, s.opens[entry], sigma), LowerLevel(f, cfg, side, s.opens[entry], sigma),
         entry, LastBar(cfg, s, entry))
  }

  lemma ExitInside(f: Functions, cfg: Config, s: Series, event: nat, side: Side)
    requires f.Valid() && cfg.Valid() && Usable(cfg, s) && Tradable(cfg, s, event)
    ensures event + cfg.delay <= ExitOf(f, cfg, s, event, side).idx < |s.times|
  {
    hide Scan, UpperLevel, LowerLevel, EntrySigma, GoodRanges;
    var entry := event + cfg.delay;
    var sigma := EntrySigma(f, cfg, s, entry);
    var upper := UpperLevel(f, cfg, side, s.opens[entry], sigma);
    var lower := LowerLevel(f, cfg, side, s.opens[entry], sigma);
    ScanAhead(cfg, side, s, upper, lower, entry, LastBar(cfg, s, entry));
  }

  /** The record of one traded event. */
  function LabelOf(f: Functions, cfg: Config, s: Series, event: nat, side: Side): (l: Label)
    requires f.Valid() && cfg.Valid() && Usable(cfg, s) && Tradable(cfg, s, event)
  {
    hide Scan, UpperLevel, LowerLevel, EntrySigma, GoodRanges, ExitOf;
    var entry := event + cfg.delay;
    var price := s.opens[entry];
    var sigma := EntrySigma(f, cfg, s, entry);
    ExitInside(f, cfg, s, event, side);
    var e := ExitOf(f, cfg, s, event, side);
    var net := NetReturn(cfg, side, price, e.price);
    Label(s.times[event], s.times[entry], s.times[e.idx], EffectiveEntry(cfg, side, price), e.price, side,
          Outcome(cfg, side, e.reason, net), net, e.reason, e.idx - entry, sigma,
          UpperLevel(f, cfg, side, price, sigma), LowerLevel(f, cfg, side, price, sigma))
  }

  // ---- causality ----

  /** The volatility at a bar is fixed by the window of bars before it. */
  lemma VolatilityIsCausal(f: Functions, s: Series, t: Series, window: nat, lo: nat, hi: nat, entry: nat)
    requires f.Valid() && window >= 2 && s.Aligned() && t.Aligned()
    requires GoodRanges(s.highs, s.lows) && GoodRanges(t.highs, t.lows)
    requires lo <= entry <= hi && (entry >= window ==> lo + window <= entry) && Agree(s, t, lo, hi)
    ensures CausalVolatility(f, s.highs, s.lows, window, entry) == CausalVolatility(f, t.highs, t.lows, window, entry)
  {
    hide Sum, SquaredRange, Times, Over;
    if entry >= window {
      var from := entry - window;
      var a, b := Ranges(f, s.highs, s.lows, from, window), Ranges(f, t.highs, t.lows, from, window);
      forall i | 0 <= i < window ensures a[i] == b[i] {
        assert s.highs[from + i] == t.highs[from + i] && s.lows[from + i] == t.lows[from + i];
      }
      assert a == b;
    }
  }

  /** Two series that show the same bars from the volatility window to the exit give the
      identical record, whatever either shows before or after.  An exit at a barrier is
      final as soon as it is seen; one at the horizon needs the same last bar. */
  lemma LabelIsCausal(f: Functions, cfg: Config, s: Series, t: Series, event: nat, side: Side, lo: nat)
    requires f.Valid() && cfg.Valid() && Usable(cfg, s) && Usable(cfg, t) && Tradable(cfg, s, event)
    requires lo <= event && (event + cfg.delay >= cfg.window ==> lo + cfg.window <= event + cfg.delay)
    requires var e := ExitOf(f, cfg, s, event, side);
      && Agree(s, t, lo, e.idx)
      && (e.reason.Vertical? ==> event + cfg.delay < |t.times| && LastBar(cfg, t, event + cfg.delay) == e.idx)
    ensures Tradable(cfg, t, event) && LabelOf(f, cfg, t, event, side) == LabelOf(f, cfg, s, event, side)
  {
    hide Scan, UpperLevel, LowerLevel, GoodRanges, CausalVolatility, Sigma, NetReturn, Outcome, EffectiveEntry, Agree;
    var entry := event + cfg.delay;
    var e := ExitOf(f, cfg, s, event, side);
    ExitInside(f, cfg, s, event, side);
    AgreeAt(s, t, lo, e.idx, event);
    AgreeAt(s, t, lo, e.idx, entry);
    AgreeAt(s, t, lo, e.idx, e.idx);
    VolatilityIsCausal(f, s, t, cfg.window, lo, e.idx, entry);
    var price := s.opens[entry];
    var sigma := EntrySigma(f, cfg, s, entry);
    var upper, lower := UpperLevel(f, cfg, side, price, sigma), LowerLevel(f, cfg, side, price, sigma);
    AgreeFrom(s, t, lo, e.idx, entry);
    ExitIsAtLast(cfg, side, s, upper, lower, entry, LastBar(cfg, s, entry));
    ScanIsCausal(cfg, side, s, t, upper, lower, entry, LastBar(cfg, s, entry), LastBar(cfg, t, entry));
  }

  lemma AgreeAt(s: Series, t: Series, lo: nat, hi: nat, k: nat)
    requires s.Aligned() && t.Aligned() && Agree(s, t, lo, hi) && lo <= k <= hi
    ensures hi < |s.times| && hi < |t.times|
    ensures s.times[k] == t.times[k] && s.opens[k] == t.opens[k] && s.closes[k] == t.closes[k]
  {
  }

  lemma AgreeFrom(s: Series, t: Series, lo: nat, hi: nat, k: nat)
    requires s.Aligned() && t.Aligned() && Agree(s, t, lo, hi) && lo <= k
    ensures Agree(s, t, k, hi)
  {
  }

  lemma {:induction false} ExitIsAtLast(cfg: Config, side: Side, s: Series, upper: real, lower: real, k: nat, last: nat)
    requires s.Aligned() && k <= last < |s.times|
    ensures var e := Scan(cfg, side, s, upper, lower, k, last);
      e.idx <= last && (e.reason.Vertical? ==> e.idx == last && e.price == s.closes[last])
  {
    hide Scan, Touches;
    ExitIsFirstTouch(cfg, side, s, upper, lower, k, last);
  }

  // ---- labels and money ----

  /** The exit is at the stop barrier of the position. */
  predicate Stopped(side: Side, reason: Reason) {
    reason.CollisionStop? || reason == (if side.Short? then Upper else Lower)
  }

  /** A target is labelled +1 and a stop -1, the stop except in one case, told by the inputs alone: a short position
      under the pessimistic policy whose first touching bar reaches both barriers.  That
      record says +1 although it exits above its entry, at a strict loss. */
  lemma StopLabelledLossIff(f: Functions, cfg: Config, s: Series, event: nat, side: Side)
    requires f.Valid() && cfg.Valid() && Usable(cfg, s) && Tradable(cfg, s, event)
    ensures var l := LabelOf(f, cfg, s, event, side);
      var entry := event + cfg.delay;
      var collides := CollidesFirst(s, l.upper, l.lower, entry, LastBar(cfg, s, entry));
      var mislabelled := side.Short? && cfg.pessimistic && collides;
      && (Stopped(side, l.reason) && l.outcome != -1 <==> mislabelled)
      && (mislabelled ==> l.outcome == 1 && l.exitPrice == l.upper > s.opens[entry] && l.net < 0.0)
      && (!Stopped(side, l.reason) && !l.reason.Vertical? ==> l.outcome == 1)
      && (l.reason.Vertical? && !cfg.signExpiration ==> l.outcome == 0)
  {
    hide Scan, GoodRanges, EntrySigma, Friction, EffectiveSigma, UpperLevel, LowerLevel, CollidesFirst;
    var entry := event + cfg.delay;
    var price := s.opens[entry];
    var sigma := EntrySigma(f, cfg, s, entry);
    var upper, lower := UpperLevel(f, cfg, side, price, sigma), LowerLevel(f, cfg, side, price, sigma);
    var e := ExitOf(f, cfg, s, event, side);
    CollisionIff(cfg, side, s, upper, lower, entry, LastBar(cfg, s, entry));
    ExitBeyondBarrier(cfg, side, s, upper, lower, entry, LastBar(cfg, s, entry));
    FrictionNonNegative(cfg);
    MoveOrder(price, price, e.price);
    assert Over(price - price, price) == 0.0;
  }

  /** That case arises: a short position entered at 100 with both barriers ten percent away
      and a first bar from 80 to 120 is labelled a win and loses money. */
  lemma LosingShortLabelledWin(f: Functions)
    requires f.Valid()
    ensures var cfg := Config(1.0, 1.0, 1, 2, 0.1, 0.1, 0.0, 0.0, None, false, false, true, 0, false);
      var s := Series([0, 1, 2], Const(3, 100.0), Const(3, 120.0), Const(3, 80.0), Const(3, 100.0));
      && cfg.Valid() && Usable(cfg, s) && Tradable(cfg, s, 0)
      && var l := LabelOf(f, cfg, s, 0, Short);
         l.reason == CollisionStop && l.outcome == 1 && l.net < 0.0
  {
    hide CausalVolatility;
    var cfg := Config(1.0, 1.0, 1, 2, 0.1, 0.1, 0.0, 0.0, None, false, false, true, 0, false);
    var s := Series([0, 1, 2], Const(3, 100.0), Const(3, 120.0), Const(3, 80.0), Const(3, 100.0));
    var sigma := EntrySigma(f, cfg, s, 0);
    assert sigma == 0.1;
    assert UpperLevel(f, cfg, Short, 100.0, sigma) == 110.0 && LowerLevel(f, cfg, Short, 100.0, sigma) == 90.0;
    assert Straddles(s, 110.0, 90.0, 0);
    assert CollidesFirst(s, 110.0, 90.0, 0, LastBar(cfg, s, 0));
    StopLabelledLossIff(f, cfg, s, 0, Short);
  }

  /** What an exit at a barrier earns, for all barriers: a long position at its upper one
      makes at least the distance to it less the round trip and at its lower one loses at
      least that distance and the round trip; a short position has the two exchanged; an
      unsigned one gains from either.  Gaps only widen the move, a collision fixes it. */
  lemma BarrierReturns(f: Functions, cfg: Config, s: Series, event: nat, side: Side)
    requires f.Valid() && cfg.Valid() && Usable(cfg, s) && Tradable(cfg, s, event)
    ensures var l := LabelOf(f, cfg, s, event, side);
      var price := s.opens[event + cfg.delay];
      var up, down := Over(l.upper - price, price), Over(l.lower - price, price);
      var gain := l.net + 2.0 * Friction(cfg);
      && (l.reason.Upper? ==> if side.Short? then gain <= -up else gain >= up)
      && (l.reason.Lower? ==> if side.Long? then gain <= down else gain >= -down)
      && (l.reason.CollisionStop? ==>
            gain == match side case Long => down case Short => -up case Unsigned => Abs(down))
  {
    hide Scan, GoodRanges, EntrySigma, Friction, EffectiveSigma, UpperLevel, LowerLevel, Over;
    var entry := event + cfg.delay;
    var price := s.opens[entry];
    var sigma := EntrySigma(f, cfg, s, entry);
    var upper, lower := UpperLevel(f, cfg, side, price, sigma), LowerLevel(f, cfg, side, price, sigma);
    var e := ExitOf(f, cfg, s, event, side);
    ExitBeyondBarrier(cfg, side, s, upper, lower, entry, LastBar(cfg, s, entry));
    MoveOrder(price, upper, e.price);
    MoveOrder(price, e.price, lower);
  }

  /** An exit at the lower barrier is never above the entry, one at the upper never below,
      even when the tick grid has moved a level across the price. */
  lemma {:induction false} ExitOnItsSide(cfg: Config, side: Side, s: Series, upper: real, lower: real, entry: nat,
                                         last: nat)
    requires s.Aligned() && entry <= last < |s.times|
    ensures var e := Scan(cfg, side, s, upper, lower, entry, last);
      && (e.reason.Lower? ==> e.price <= s.opens[entry])
      && (e.reason.Upper? ==> e.price >= s.opens[entry])
  {
    hide Scan;
    ExitIsFirstTouch(cfg, side, s, upper, lower, entry, last);
    ExitBeyondBarrier(cfg, side, s, upper, lower, entry, last);
    var e := Scan(cfg, side, s, upper, lower, entry, last);
    assert entry < e.idx ==> !Touches(s, upper, lower, entry);
  }

  /** A barrier exit labelled -1, documented as a stop-loss, has made money exactly when the
      position is unsigned, left by its lower barrier or a collision, and moved by more than
      the round trip. */
  lemma LossLabelGainIff(f: Functions, cfg: Config, s: Series, event: nat, side: Side)
    requires f.Valid() && cfg.Valid() && Usable(cfg, s) && Tradable(cfg, s, event)
    ensures var l := LabelOf(f, cfg, s, event, side);
      var price := s.opens[event + cfg.delay];
      !l.reason.Vertical? && l.outcome == -1 && l.net > 0.0
      <==> side.Unsigned? && (l.reason.Lower? || l.reason.CollisionStop?)
           && Abs(Over(l.exitPrice - price, price)) > 2.0 * Friction(cfg)
  {
    hide Scan, GoodRanges, EntrySigma, Friction, EffectiveSigma, UpperLevel, LowerLevel, CollidesFirst, Over;
    var entry := event + cfg.delay;
    var price := s.opens[entry];
    var sigma := EntrySigma(f, cfg, s, entry);
    var upper, lower := UpperLevel(f, cfg, side, price, sigma), LowerLevel(f, cfg, side, price, sigma);
    var e := ExitOf(f, cfg, s, event, side);
    ExitOnItsSide(cfg, side, s, upper, lower, entry, LastBar(cfg, s, entry));
    CollisionIff(cfg, side, s, upper, lower, entry, LastBar(cfg, s, entry));
    ExitBeyondBarrier(cfg, side, s, upper, lower, entry, LastBar(cfg, s, entry));
    FrictionNonNegative(cfg);
    MoveOrder(price, price, e.price);
    MoveOrder(price, e.price, price);
    NoMove(price);
  }

  lemma NoMove(price: real)
    requires price > 0.0
    ensures Over(price - price, price) == 0.0
  {
  }

  /** That case arises: an unsigned position entered at 100 falls through its lower barrier
      at 90, earns ten percent and is labelled a loss. */
  lemma UnsignedWinLabelledLoss(f: Functions)
    requires f.Valid()
    ensures var cfg := Config(1.0, 1.0, 1, 2, 0.1, 0.1, 0.0, 0.0, None, false, false, true, 0, false);
      var s := Series([0, 1, 2], Const(3, 100.0), Const(3, 105.0), Const(3, 80.0), Const(3, 100.0));
      && cfg.Valid() && Usable(cfg, s) && Tradable(cfg, s, 0)
      && var l := LabelOf(f, cfg, s, 0, Unsigned);
         l.reason == Lower && l.outcome == -1 && l.net > 0.0
  {
    hide CausalVolatility;
    var cfg := Config(1.0, 1.0, 1, 2, 0.1, 0.1, 0.0, 0.0, None, false, false, true, 0, false);
    var s := Series([0, 1, 2], Const(3, 100.0), Const(3, 105.0), Const(3, 80.0), Const(3, 100.0));
    var sigma := EntrySigma(f, cfg, s, 0);
    assert sigma == 0.1;
    assert UpperLevel(f, cfg, Unsigned, 100.0, sigma) == 110.0 && LowerLevel(f, cfg, Unsigned, 100.0, sigma) == 90.0;
    assert Settle(cfg, Unsigned, s, 110.0, 90.0, 0) == Some(Exit(0, 90.0, Lower));
  }

  /** The sign of an expiration as documented: that of the return, and 0 when it does not
      exceed the friction in magnitude. */
  function DocumentedSign(gross: real, friction: real): int {
    if Abs(gross) <= friction then 0 else if gross > 0.0 then 1 else -1
  }

  /** The code signs the return after costs instead: the two labels of an expiration agree
      exactly outside the friction band, the band's upper end included, and inside it every
      expiration is labelled -1 where 0 is documented. */
  lemma ExpirySignIff(f: Functions, cfg: Config, s: Series, event: nat, side: Side)
    requires f.Valid() && cfg.Valid() && Usable(cfg, s) && Tradable(cfg, s, event)
    requires cfg.signExpiration && LabelOf(f, cfg, s, event, side).reason.Vertical?
    ensures var l := LabelOf(f, cfg, s, event, side);
      var entry := event + cfg.delay;
      var cost := 2.0 * Friction(cfg);
      var gross := GrossReturn(side, s.opens[entry], s.closes[LastBar(cfg, s, entry)]);
      && l.exitPrice == s.closes[LastBar(cfg, s, entry)]
      && (l.outcome == DocumentedSign(gross, cost) <==> !(-cost <= gross < cost))
      && (-cost <= gross < cost ==> l.outcome == -1 && DocumentedSign(gross, cost) == 0)
  {
    hide Scan, GoodRanges, EntrySigma, Friction, EffectiveSigma, UpperLevel, LowerLevel, Over;
    var entry := event + cfg.delay;
    var price := s.opens[entry];
    var sigma := EntrySigma(f, cfg, s, entry);
    ExitIsAtLast(cfg, side, s, UpperLevel(f, cfg, side, price, sigma), LowerLevel(f, cfg, side, price, sigma), entry,
                 LastBar(cfg, s, entry));
    FrictionNonNegative(cfg);
  }

  /** It does: flat prices and any cost at all. */
  lemma FlatExpiryLabelledLoss(f: Functions)
    requires f.Valid()
    ensures var cfg := Config(1.0, 1.0, 1, 2, 0.1, 0.1, 1.0, 0.0, None, false, false, true, 0, true);
      var s := Series([0, 1, 2], Const(3, 100.0), Const(3, 100.0), Const(3, 100.0), Const(3, 100.0));
      && cfg.Valid() && Usable(cfg, s) && Tradable(cfg, s, 0)
      && var l := LabelOf(f, cfg, s, 0, Long);
         l.reason == Vertical && l.exitPrice == 100.0 && l.outcome == -1
  {
    hide CausalVolatility;
    var cfg := Config(1.0, 1.0, 1, 2, 0.1, 0.1, 1.0, 0.0, None, false, false, true, 0, true);
    var s := Series([0, 1, 2], Const(3, 100.0), Const(3, 100.0), Const(3, 100.0), Const(3, 100.0));
    var sigma := EntrySigma(f, cfg, s, 0);
    assert sigma == 0.1;
    assert UpperLevel(f, cfg, Long, 100.0, sigma) == 110.0 && LowerLevel(f, cfg, Long, 100.0, sigma) == 90.0;
    assert Scan(cfg, Long, s, 110.0, 90.0, 1, 1) == Exit(1, 100.0, Vertical);
    assert Friction(cfg) == 0.0001;
  }

  /** With percentage barriers and no tick grid, a position that exits at its stop loses at
      least the stop distance and the round trip, and one that exits at its target gains
      at least the target less the round trip. */
  lemma PercentageReturns(f: Functions, cfg: Config, s: Series, event: nat, side: Side)
    requires f.Valid() && cfg.Valid() && Usable(cfg, s) && Tradable(cfg, s, event)
    requires !cfg.logBarriers && cfg.tick.None? && !side.Unsigned?
    ensures var l := LabelOf(f, cfg, s, event, side);
      var width := EffectiveSigma(f, cfg, l.volatility);
      && (Stopped(side, l.reason) ==> l.net <= -Times(cfg.stop, width) - 2.0 * Friction(cfg))
      && (!Stopped(side, l.reason) && !l.reason.Vertical? ==> l.net >= Times(cfg.profit, width) - 2.0 * Friction(cfg))
  {
    hide ExitOf, GoodRanges, EntrySigma, Friction, EffectiveSigma, NetReturn, Outcome, Times, Over;
    var entry := event + cfg.delay;
    var price := s.opens[entry];
    var width := EffectiveSigma(f, cfg, EntrySigma(f, cfg, s, entry));
    BarrierReturns(f, cfg, s, event, side);
    PercentageMove(price, Times(Above(cfg, side), width));
    PercentageMove(price, -Times(Below(cfg, side), width));
  }

  lemma FrictionNonNegative(cfg: Config)
    requires cfg.Valid()
    ensures Friction(cfg) >= 0.0
  {
    NonNegProduct(cfg.spread + cfg.fee, 0.0001);
  }

  /** Of two prices the larger is the larger move from a positive one. */
  lemma MoveOrder(price: real, a: real, b: real)
    requires price > 0.0
    ensures a <= b ==> Over(a - price, price) <= Over(b - price, price)
    ensures a < b ==> Over(a - price, price) < Over(b - price, price)
  {
    hide Times, Over;
    var x, y := Over(a - price, price), Over(b - price, price);
    Quotient(a - price, price);
    Quotient(b - price, price);
    if y <= x {
      TimesMonotone(price, y, x);
    }
    if y < x {
      TimesStrict(price, y, x);
    }
  }

  /** The recorded volatility is clamped, and the recorded entry is worse than the open by
      the one-way friction for either direction. */
  lemma RecordedEntry(f: Functions, cfg: Config, s: Series, event: nat, side: Side)
    requires f.Valid() && cfg.Valid() && Usable(cfg, s) && Tradable(cfg, s, event)
    ensures var l := LabelOf(f, cfg, s, event, side);
      var price := s.opens[event + cfg.delay];
      && cfg.floor <= l.volatility <= cfg.cap
      && (side.Long? ==> l.entryPrice == price + Times(price, Friction(cfg)) >= price)
      && (side.Short? ==> l.entryPrice == price - Times(price, Friction(cfg)) <= price)
      && (side.Unsigned? ==> l.entryPrice == price)
  {
    hide ExitOf, UpperLevel, LowerLevel, GoodRanges, CausalVolatility, NetReturn, Outcome, Times;
    var price := s.opens[event + cfg.delay];
    FrictionNonNegative(cfg);
    NonNegProduct(price, Friction(cfg));
    Distribute(price, 1.0, Friction(cfg));
    Distribute(price, 1.0, -Friction(cfg));
    TimesOne(price);
    NegatedFactor(price, Friction(cfg));
  }

  lemma NegatedFactor(a: real, b: real)
    ensures Times(a, -b) == -Times(a, b)
  {
  }

  lemma PercentageMove(price: real, move: real)
    requires price > 0.0
    ensures Over(Times(price, 1.0 + move) - price, price) == move
  {
    hide Times, Over;
    var r := Over(Times(price, 1.0 + move) - price, price);
    Quotient(Times(price, 1.0 + move) - price, price);
    Distribute(price, 1.0, move);
    TimesOne(price);
    if r < move {
      TimesStrict(price, r, move);
    }
    if r > move {
      TimesStrict(price, move, r);
    }
  }

  // ---- all events ----

  datatype Failure = Dimensions | TooShort | BadRanges(cause: RangeFailure) | SideCount | TimestampOrder

  /** An unknown side number is taken for a long position. */
  function SideOf(raw: int): Side { if raw == -1 then Short else if raw == 0 then Unsigned else Long }

  /** The records of the tradable events, in order. */
  function LabelsOf(f: Functions, cfg: Config, s: Series, events: seq<int>, sides: seq<Side>): seq<Label>
    requires f.Valid() && cfg.Valid() && Usable(cfg, s) && |events| == |sides|
  {
    if events == [] then []
    else
      var n := |events| - 1;
      LabelsOf(f, cfg, s, events[..n], sides[..n])
      + if Tradable(cfg, s, events[n]) then [LabelOf(f, cfg, s, events[n], sides[n])] else []
  }

  /** The event is traded and its record would exit before it enters. */
  ghost predicate Backward(f: Functions, cfg: Config, s: Series, event: int, side: Side)
    requires f.Valid() && cfg.Valid() && Usable(cfg, s)
  {
    Tradable(cfg, s, event) && LabelOf(f, cfg, s, event, side).entryTime > LabelOf(f, cfg, s, event, side).exitTime
  }

  ghost predicate AnyBackward(f: Functions, cfg: Config, s: Series, events: seq<int>, sides: seq<Side>)
    requires f.Valid() && cfg.Valid() && Usable(cfg, s) && |events| == |sides|
  {
    exists i :: 0 <= i < |events| && Backward(f, cfg, s, events[i], sides[i])
  }

  /** The events evaluated when none are given: every bar past the warm-up whose horizon
      fits into the series. */
  function DefaultEvents(cfg: Config, n: nat): (e: seq<int>)
    ensures forall i :: 0 <= i < |e| ==> e[i] == cfg.window + 1 + i
  {
    var start, stop := cfg.window + 1, n - cfg.horizon - cfg.delay;
    if start >= stop then [] else seq(stop - start, i => start + i)
  }

  /** Default events see their whole horizon and a complete volatility window, so with
      positive opens none is skipped. */
  lemma DefaultEventsComplete(cfg: Config, s: Series, i: nat)
    requires s.Aligned() && i < |DefaultEvents(cfg, |s.times|)|
    ensures var event := DefaultEvents(cfg, |s.times|)[i];
      && cfg.window < event + cfg.delay < |s.times| - cfg.horizon
      && LastBar(cfg, s, event + cfg.delay) == event + cfg.delay + cfg.horizon
      && (Tradable(cfg, s, event) <==> s.opens[event + cfg.delay] > 0.0)
  {
  }

  function EventsOf(cfg: Config, s: Series, events: Option<seq<int>>): seq<int> {
    if events.Some? then events.value else DefaultEvents(cfg, |s.times|)
  }

  /** The directions given, or all long. */
  function DirectionsOf(sides: Option<seq<int>>, n: nat): (d: seq<Side>)
    requires sides.Some? ==> |sides.value| == n
    ensures |d| == n
  {
    seq(n, i requires 0 <= i < n => if sides.Some? then SideOf(sides.value[i]) else Long)
  }

  /** As many directions as events; not asked for when no event is due. */
  predicate SidesFit(cfg: Config, s: Series, events: Option<seq<int>>, sides: Option<seq<int>>) {
    sides.Some? ==> |sides.value| == |EventsOf(cfg, s, events)| || (events.None? && EventsOf(cfg, s, events) == [])
  }

  method LabelArrays(f: Functions, cfg: Config, s: Series, events: Option<seq<int>>, sides: Option<seq<int>>)
    returns (r: Result<seq<Label>, Failure>)
    requires f.Valid() && cfg.Valid()
    ensures r == Err(Dimensions) <==> !s.Aligned()
    ensures r == Err(TooShort) <==> s.Aligned() && |s.times| < cfg.window + cfg.horizon + cfg.delay
    ensures r == Err(SideCount) <==> Usable(cfg, s) && !SidesFit(cfg, s, events, sides)
    ensures r == Err(BadRanges(PriceNotPositive)) <==> LongEnough(cfg, s) && !PositivePrices(s.highs, s.lows)
    ensures r == Err(BadRanges(HighBelowLow)) <==>
      LongEnough(cfg, s) && PositivePrices(s.highs, s.lows) && !GoodRanges(s.highs, s.lows)
    ensures r.Err? && r.error.BadRanges? ==> r.error.cause.PriceNotPositive? || r.error.cause.HighBelowLow?
    ensures r == Err(TimestampOrder) <==>
      && Usable(cfg, s) && SidesFit(cfg, s, events, sides) && EventsOf(cfg, s, events) != []
      && AnyBackward(f, cfg, s, EventsOf(cfg, s, events), DirectionsOf(sides, |EventsOf(cfg, s, events)|))
    ensures r.Ok? ==> Usable(cfg, s) && SidesFit(cfg, s, events, sides)
    ensures r.Ok? && EventsOf(cfg, s, events) == [] ==> r.value == []
    ensures r.Ok? && EventsOf(cfg, s, events) != [] ==>
      r.value == LabelsOf(f, cfg, s, EventsOf(cfg, s, events), DirectionsOf(sides, |EventsOf(cfg, s, events)|))
    ensures r.Ok? ==> forall i :: 0 <= i < |r.value| ==> r.value[i].entryTime <= r.value[i].exitTime
  {
    hide LabelOf, GoodRanges, PositivePrices, CausalVolatility, EventsOf;
    var n := |s.times|;
    if !s.Aligned() {
      return Err(Dimensions);
    }
    if n < cfg.window + cfg.horizon + cfg.delay {
      return Err(TooShort);
    }
    var vol := ComputeParkinsonVolatility(f, s.highs, s.lows, cfg.window);
    if vol.Err? {
      return Err(BadRanges(vol.error));
    }
    var targets := EventsOf(cfg, s, events);
    if events.None? && targets == [] {
      return Ok([]);
    }
    if sides.Some? && |sides.value| != |targets| {
      return Err(SideCount);
    }
    var directions := DirectionsOf(sides, |targets|);
    var labels: seq<Label> := [];
    for i := 0 to |targets|
      invariant labels == LabelsOf(f, cfg, s, targets[..i], directions[..i])
      invariant forall j :: 0 <= j < |labels| ==> labels[j].entryTime <= labels[j].exitTime
      invariant forall j :: 0 <= j < i ==> !Backward(f, cfg, s, targets[j], directions[j])
    {
      assert targets[..i + 1][..i] == targets[..i] && directions[..i + 1][..i] == directions[..i];
      if Tradable(cfg, s, targets[i]) {
        var l := LabelEvent(f, cfg, s, targets[i], directions[i], vol.value);
        if l.entryTime > l.exitTime {
          assert Backward(f, cfg, s, targets[i], directions[i]);
          return Err(TimestampOrder);
        }
        labels := labels + [l];
      }
    }
    assert targets[..|targets|] == targets && directions[..|targets|] == directions;
    r := Ok(labels);
  }

  ghost predicate Nondecreasing(times: seq<int>) { forall i, j :: 0 <= i <= j < |times| ==> times[i] <= times[j] }

  /** The record's own validator refuses only unordered time stamps. */
  lemma OrderedTimesNeverBackward(f: Functions, cfg: Config, s: Series, events: seq<int>, sides: seq<Side>)
    requires f.Valid() && cfg.Valid() && Usable(cfg, s) && |events| == |sides| && Nondecreasing(s.times)
    ensures !AnyBackward(f, cfg, s, events, sides)
  {
    hide ExitOf, EntrySigma, UpperLevel, LowerLevel, NetReturn, Outcome, EffectiveEntry, GoodRanges;
    forall i | 0 <= i < |events| && Tradable(cfg, s, events[i]) ensures !Backward(f, cfg, s, events[i], sides[i]) {
      ExitInside(f, cfg, s, events[i], sides[i]);
    }
  }

  /** One traded event, with the volatility read from the precomputed series. */
  method LabelEvent(f: Functions, cfg: Config, s: Series, event: nat, side: Side, vol: seq<real>) returns (l: Label)
    requires f.Valid() && cfg.Valid() && Usable(cfg, s) && Tradable(cfg, s, event)
    requires |vol| == |s.times|
    requires forall t :: 0 <= t < |vol| ==> vol[t] == CausalVolatility(f, s.highs, s.lows, cfg.window, t)
    ensures l == LabelOf(f, cfg, s, event, side)
  {
    hide Scan, UpperLevel, LowerLevel, GoodRanges, CausalVolatility, Outcome;
    var entry := event + cfg.delay;
    var price := s.opens[entry];
    var effective := EffectiveEntry(cfg, side, price);
    var sigma := Max(cfg.floor, Min(cfg.cap, vol[entry]));
    var upper, lower := UpperLevel(f, cfg, side, price, sigma), LowerLevel(f, cfg, side, price, sigma);
    var last := LastBar(cfg, s, entry);
    var e := FindExit(cfg, side, s, upper, lower, entry, last);
    ExitInside(f, cfg, s, event, side);
    var net := NetReturn(cfg, side, price, e.price);
    l := Label(s.times[event], s.times[entry], s.times[e.idx], effective, e.price, side,
               Outcome(cfg, side, e.reason, net), net, e.reason, e.idx - entry, sigma, upper, lower);
  }
}
