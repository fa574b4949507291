/** What a triple-barrier record says in prices, returns, times and counts: the laws that fix
    the volatility, the barriers, the exit and the cost without their formulas. */
module LabelRecords {
  import opened Results
  import opened Vectors
  import opened Labeling

  // ---- volatility ----

  /** The square root and the square undo each other on the non-negative numbers. */
  ghost predicate Root(f: Functions) { forall x :: x >= 0.0 ==> Times(f.sqrt(x), f.sqrt(x)) == x }

  /** r lists the squared logarithmic ranges of the window of bars that ends one bar before t. */
  ghost predicate SquaredLogRanges(f: Functions, highs: seq<real>, lows: seq<real>, window: nat, t: nat, r: seq<real>)
    requires GoodRanges(highs, lows) && window <= t < |highs|
  {
    |r| == window
    && forall i :: 0 <= i < window ==>
         var k := t - window + i;
         r[i] == f.log(Over(highs[k], lows[k])) * f.log(Over(highs[k], lows[k]))
  }

  /** Parkinson's estimator: 4 log 2 times the squared volatility is the mean squared log range
      of the window before t; until the first window is complete it is zero. */
  lemma {:induction false} ParkinsonEstimator(f: Functions, highs: seq<real>, lows: seq<real>, window: nat, t: nat,
                                              r: seq<real>)
    requires f.Valid() && Root(f) && window >= 2 && GoodRanges(highs, lows) && t < |highs|
    ensures t < window ==> CausalVolatility(f, highs, lows, window, t) == 0.0
    ensures t >= window && SquaredLogRanges(f, highs, lows, window, t, r) ==>
      var v := CausalVolatility(f, highs, lows, window, t);
      Times(Times(v, v), 4.0 * Times(f.log(2.0), window as real)) == Sum(r)
  {
    if t >= window && SquaredLogRanges(f, highs, lows, window, t, r) {
      hide Sum, Over, Times, Root;
      var from := t - window;
      var ranges := Ranges(f, highs, lows, from, window);
      assert ranges == r by { SameRanges(f, highs, lows, window, t, r); }
      SumOfSquares(f, highs, lows, from, window);
      var norm := 4.0 * Times(f.log(2.0), window as real);
      PositiveProduct(f.log(2.0), window as real);
      ScaledSum(f, Sum(r), norm);
    }
  }

  lemma SameRanges(f: Functions, highs: seq<real>, lows: seq<real>, window: nat, t: nat, r: seq<real>)
    requires f.Valid() && GoodRanges(highs, lows) && window <= t < |highs|
    requires SquaredLogRanges(f, highs, lows, window, t, r)
    ensures Ranges(f, highs, lows, t - window, window) == r
  {
    hide Over;
    forall i | 0 <= i < window ensures Ranges(f, highs, lows, t - window, window)[i] == r[i] {
      var k := t - window + i;
      assert lows[k] > 0.0;
    }
  }

  lemma SumOfSquares(f: Functions, highs: seq<real>, lows: seq<real>, from: nat, count: nat)
    requires GoodRanges(highs, lows) && from + count <= |highs|
    ensures Sum(Ranges(f, highs, lows, from, count)) >= 0.0
  {
    hide Sum, Times;
    var r := Ranges(f, highs, lows, from, count);
    forall i | 0 <= i < count ensures r[i] >= 0.0 {
      SquarePositive(f.log(Over(highs[from + i], lows[from + i])));
    }
    SumNonNeg(r);
  }

  lemma ScaledSum(f: Functions, total: real, norm: real)
    requires Root(f) && total >= 0.0 && norm > 0.0
    ensures var v := f.sqrt(Max(0.0, Times(total, Over(1.0, norm)))); Times(Times(v, v), norm) == total
  {
    hide Times, Over;
    var part := Over(1.0, norm);
    Quotient(1.0, norm);
    assert part > 0.0 by { ReciprocalPositive(norm); }
    NonNegProduct(total, part);
    TimesAssoc(total, part, norm);
    TimesSym(part, norm);
    TimesOne(total);
  }

  lemma ReciprocalPositive(k: real)
    requires k > 0.0
    ensures Over(1.0, k) > 0.0
  {
  }

  /** The volatility a record carries is the estimate at its entry bar, held inside the band. */
  lemma RecordedVolatility(f: Functions, cfg: Config, s: Series, event: nat, side: Side)
    requires f.Valid() && cfg.Valid() && Usable(cfg, s) && Tradable(cfg, s, event)
    ensures var v := LabelOf(f, cfg, s, event, side).volatility;
      var raw := CausalVolatility(f, s.highs, s.lows, cfg.window, event + cfg.delay);
      && (cfg.floor <= raw <= cfg.cap ==> v == raw)
      && (raw < cfg.floor ==> v == cfg.floor)
      && (raw > cfg.cap ==> v == cfg.cap)
  {
    hide ExitOf, UpperLevel, LowerLevel, GoodRanges, CausalVolatility, NetReturn, Outcome, EffectiveEntry;
  }

  // ---- barriers ----

  /** Scaled to the horizon the variance grows in proportion to it; otherwise the volatility
      is taken as it is. */
  lemma HorizonScaling(f: Functions, cfg: Config, sigma: real)
    requires cfg.Valid() && Root(f)
    ensures var width := EffectiveSigma(f, cfg, sigma);
      if cfg.scaleByHorizon then Times(width, width) == Times(Times(sigma, sigma), cfg.horizon as real)
      else width == sigma
  {
    if cfg.scaleByHorizon {
      hide Times, Root;
      var root := f.sqrt(cfg.horizon as real);
      assert Times(root, root) == cfg.horizon as real by { RootAt(f, cfg.horizon as real); }
      SquareOfProduct(sigma, root);
    }
  }

  lemma RootAt(f: Functions, x: real)
    requires Root(f) && x >= 0.0
    ensures Times(f.sqrt(x), f.sqrt(x)) == x
  {
  }

  lemma SquareOfProduct(a: real, b: real)
    ensures Times(Times(a, b), Times(a, b)) == Times(Times(a, a), Times(b, b))
  {
  }

  ghost predicate UndoesExp(f: Functions) { forall x :: f.log(f.exp(x)) == x }

  /** level lies at the signed distance move from price: in log prices, or as a fraction of it. */
  ghost predicate Displaced(f: Functions, cfg: Config, price: real, level: real, move: real) {
    if cfg.logBarriers then f.log(level) == f.log(price) + move else level - price == Times(price, move)
  }

  /** Where the barriers of a record lie: by the profit multiple of the width on the winning
      side and by the stop multiple on the losing one, in log prices or in fractions of the
      entry price, moved to the nearest tick when there is a grid. */
  lemma BarrierDistances(f: Functions, cfg: Config, s: Series, event: nat, side: Side)
    requires f.Valid() && cfg.Valid() && Usable(cfg, s) && Tradable(cfg, s, event)
    requires UndoesExp(f)
    ensures var l := LabelOf(f, cfg, s, event, side);
      var price := s.opens[event + cfg.delay];
      var width := EffectiveSigma(f, cfg, l.volatility);
      var up, down := if side == Short then cfg.stop else cfg.profit, if side == Short then cfg.profit else cfg.stop;
      && (exists upper :: OnTicks(cfg, upper, l.upper) && Displaced(f, cfg, price, upper, Times(up, width)))
      && (exists lower :: OnTicks(cfg, lower, l.lower) && Displaced(f, cfg, price, lower, -Times(down, width)))
  {
    hide ExitOf, EntrySigma, GoodRanges, NetReturn, Outcome, EffectiveEntry, Times, Over, EffectiveSigma, OnGrid;
    var price := s.opens[event + cfg.delay];
    var width := EffectiveSigma(f, cfg, LabelOf(f, cfg, s, event, side).volatility);
    var up, down := Times(Above(cfg, side), width), Times(Below(cfg, side), width);
    var upper := if cfg.logBarriers then f.exp(f.log(price) + up) else Times(price, 1.0 + up);
    var lower := if cfg.logBarriers then f.exp(f.log(price) - down) else Times(price, 1.0 - down);
    GridNear(cfg, upper);
    GridNear(cfg, lower);
    Distribute(price, 1.0, up);
    Distribute(price, 1.0, -down);
    TimesOne(price);
    assert OnTicks(cfg, upper, OnGrid(cfg, upper)) && Displaced(f, cfg, price, upper, up);
    assert OnTicks(cfg, lower, OnGrid(cfg, lower)) && Displaced(f, cfg, price, lower, -down);
  }

  // ---- the exit ----

  /** The price and the reason of an exit: an upper one at the barrier or at the higher open
      of a gap, a lower one at the barrier or at the lower open; a bar that opens between the
      barriers and reaches both exits by the upper one unless the policy is pessimistic. */
  lemma {:induction false} ExitPrices(cfg: Config, side: Side, s: Series, upper: real, lower: real, k: nat, last: nat)
    requires s.Aligned() && k <= last < |s.times|
    ensures var e := Scan(cfg, side, s, upper, lower, k, last);
      k <= e.idx <= last
      && var open, high, low := s.opens[e.idx], s.highs[e.idx], s.lows[e.idx];
         && (e.reason == Upper ==> e.price == Max(open, upper))
         && (e.reason == Lower ==> e.price == Min(open, lower))
         && (e.reason == CollisionStop ==> e.price == if side == Short then upper else lower)
         && (e.reason == Upper <==>
               open >= upper || (lower < open && high >= upper && (low > lower || !cfg.pessimistic)))
         && (e.reason == Lower <==> open < upper && (open <= lower || (low <= lower && high < upper)))
  {
    hide Scan;
    ExitIsFirstTouch(cfg, side, s, upper, lower, k, last);
  }

  /** The times of a record: entry after the delay, exit at most a horizon later, and an
      expiration at the horizon or at the end of the series. */
  lemma RecordedTimes(f: Functions, cfg: Config, s: Series, event: nat, side: Side)
    requires f.Valid() && cfg.Valid() && Usable(cfg, s) && Tradable(cfg, s, event)
    ensures var l := LabelOf(f, cfg, s, event, side);
      var entry := event + cfg.delay;
      && entry + l.holding < |s.times| && l.holding <= cfg.horizon
      && l.eventTime == s.times[event] && l.entryTime == s.times[entry] && l.exitTime == s.times[entry + l.holding]
      && (l.reason == Vertical ==> l.holding == cfg.horizon || entry + l.holding == |s.times| - 1)
      && (l.reason == Vertical ==> l.exitPrice == s.closes[entry + l.holding])
      && l.side == side
  {
    hide Scan, UpperLevel, LowerLevel, EntrySigma, GoodRanges, NetReturn, Outcome, EffectiveEntry;
    var entry := event + cfg.delay;
    var sigma := EntrySigma(f, cfg, s, entry);
    var upper := UpperLevel(f, cfg, side, s.opens[entry], sigma);
    var lower := LowerLevel(f, cfg, side, s.opens[entry], sigma);
    ScanAhead(cfg, side, s, upper, lower, entry, LastBar(cfg, s, entry));
    ExitIsAtLast(cfg, side, s, upper, lower, entry, LastBar(cfg, s, entry));
  }

  // ---- returns ----

  /** What a record earns: the relative move of the price, taken in the direction of the
      position, less twice spread and fee in basis points. */
  lemma RoundTripCost(f: Functions, cfg: Config, s: Series, event: nat, side: Side)
    requires f.Valid() && cfg.Valid() && Usable(cfg, s) && Tradable(cfg, s, event)
    ensures var l := LabelOf(f, cfg, s, event, side);
      var price := s.opens[event + cfg.delay];
      var move := Over(l.exitPrice - price, price);
      var gross := l.net + 0.0002 * (cfg.spread + cfg.fee);
      && (side == Long ==> gross == move)
      && (side == Short ==> gross == -move)
      && (side == Unsigned ==> gross == Abs(move))
      && (side == Long ==> l.entryPrice == Times(price, 1.0 + 0.0001 * (cfg.spread + cfg.fee)))
      && (side == Short ==> l.entryPrice == Times(price, 1.0 - 0.0001 * (cfg.spread + cfg.fee)))
  {
    hide ExitOf, UpperLevel, LowerLevel, EntrySigma, GoodRanges, Outcome, Over;
  }

  // ---- which events ----

  /** The records are those of the tradable events: an event is skipped exactly when it lies
      outside the series, its entry bar does, or that bar opens at no positive price. */
  lemma {:induction false} LabelledIff(f: Functions, cfg: Config, s: Series, events: seq<int>, sides: seq<Side>)
    requires f.Valid() && cfg.Valid() && Usable(cfg, s) && |events| == |sides|
    ensures forall i ::
      && 0 <= i < |events|
      && 0 <= events[i] && events[i] + cfg.delay < |s.times| && s.opens[events[i] + cfg.delay] > 0.0 ==>
        LabelOf(f, cfg, s, events[i], sides[i]) in LabelsOf(f, cfg, s, events, sides)
    ensures forall l :: l in LabelsOf(f, cfg, s, events, sides) ==> FromEvent(f, cfg, s, events, sides, l)
  {
    hide LabelOf, GoodRanges;
    if events != [] {
      var n := |events| - 1;
      var labels, before := LabelsOf(f, cfg, s, events, sides), LabelsOf(f, cfg, s, events[..n], sides[..n]);
      LabelledIff(f, cfg, s, events[..n], sides[..n]);
      forall i |
        0 <= i <= n && 0 <= events[i] && events[i] + cfg.delay < |s.times| && s.opens[events[i] + cfg.delay] > 0.0
        ensures LabelOf(f, cfg, s, events[i], sides[i]) in labels
      {
        if i < n {
          assert events[..n][i] == events[i] && sides[..n][i] == sides[i];
        } else {
          assert labels[|before|] == LabelOf(f, cfg, s, events[n], sides[n]);
        }
      }
      forall l | l in labels ensures FromEvent(f, cfg, s, events, sides, l) {
        if l in before {
          FromPrefix(f, cfg, s, events, sides, n, l);
        } else {
          assert Yields(f, cfg, s, events[n], sides[n], l);
        }
      }
    }
  }

  /** The event is inside the series with a priced entry bar, and l is its record. */
  ghost predicate Yields(f: Functions, cfg: Config, s: Series, event: int, side: Side, l: Label)
    requires f.Valid() && cfg.Valid() && Usable(cfg, s)
  {
    0 <= event && event + cfg.delay < |s.times| && s.opens[event + cfg.delay] > 0.0
    && l == LabelOf(f, cfg, s, event, side)
  }

  ghost predicate FromEvent(f: Functions, cfg: Config, s: Series, events: seq<int>, sides: seq<Side>, l: Label)
    requires f.Valid() && cfg.Valid() && Usable(cfg, s) && |events| == |sides|
  {
    exists i :: 0 <= i < |events| && Yields(f, cfg, s, events[i], sides[i], l)
  }

  lemma FromPrefix(f: Functions, cfg: Config, s: Series, events: seq<int>, sides: seq<Side>, n: nat, l: Label)
    requires f.Valid() && cfg.Valid() && Usable(cfg, s) && |events| == |sides| && n <= |events|
    requires FromEvent(f, cfg, s, events[..n], sides[..n], l)
    ensures FromEvent(f, cfg, s, events, sides, l)
  {
    hide Yields, GoodRanges, LongEnough;
    var i :| 0 <= i < n && Yields(f, cfg, s, events[..n][i], sides[..n][i], l);
    assert Yields(f, cfg, s, events[i], sides[i], l);
  }

  /** Records keep the order of their events: labelling two lists of events one after the
      other labels their concatenation. */
  lemma {:induction false} LabelsConcat(f: Functions, cfg: Config, s: Series, a: seq<int>, x: seq<Side>, b: seq<int>,
                                        y: seq<Side>)
    requires f.Valid() && cfg.Valid() && Usable(cfg, s) && |a| == |x| && |b| == |y|
    ensures LabelsOf(f, cfg, s, a + b, x + y) == LabelsOf(f, cfg, s, a, x) + LabelsOf(f, cfg, s, b, y)
  {
    hide LabelOf, GoodRanges, LongEnough, Tradable;
    if b == [] {
      assert a + b == a && x + y == x;
    } else {
      var n := |b| - 1;
      LabelsConcat(f, cfg, s, a, x, b[..n], y[..n]);
      assert (a + b)[..|a + b| - 1] == a + b[..n] && (x + y)[..|a + b| - 1] == x + y[..n];
    }
  }

  /** The directions are those given, -1 short, 0 unsigned and every other number long; without
      any every position is long.  Likewise given events replace the default ones. */
  lemma DirectionsIff(cfg: Config, s: Series, events: Option<seq<int>>, sides: Option<seq<int>>, n: nat, i: nat)
    requires i < n && (sides.Some? ==> |sides.value| == n)
    ensures DirectionsOf(sides, n)[i] == Short <==> sides.Some? && sides.value[i] == -1
    ensures DirectionsOf(sides, n)[i] == Unsigned <==> sides.Some? && sides.value[i] == 0
    ensures events.Some? ==> EventsOf(cfg, s, events) == events.value
    ensures events.None? ==> EventsOf(cfg, s, events) == DefaultEvents(cfg, |s.times|)
  {
  }

  /** By default an event is evaluated exactly when its volatility window is complete and its
      whole horizon fits into the series. */
  lemma DefaultEventsIff(cfg: Config, n: nat, event: int)
    ensures event in DefaultEvents(cfg, n) <==> cfg.window < event && event + cfg.delay + cfg.horizon < n
  {
    var e := DefaultEvents(cfg, n);
    if cfg.window < event && event + cfg.delay + cfg.horizon < n {
      assert e[event - cfg.window - 1] == event;
    }
  }
}
