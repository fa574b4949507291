/** The circuit-breaker tier machine: four ordered risk tiers, immediate escalation, and
    a recovery that must wait out a dwell time below a separate barrier. */
module CircuitBreaker {
  import opened Vectors

  datatype Tier = Normal | Caution | Derisk | Halt {
    function Level(): nat {
      match this
      case Normal => 0
      case Caution => 1
      case Derisk => 2
      case Halt => 3
    }

    predicate Locked() { Derisk? || Halt? }
  }

  /** The tier one step less severe. */
  function Lower(t: Tier): Tier {
    match t
    case Halt => Derisk
    case Derisk => Caution
    case _ => Normal
  }

  datatype Config = Config(recovery: real, caution: real, derisk: real, halt: real, dwell: nat) {
    predicate Valid() {
      && dwell >= 1
      && 0.0 < recovery < caution < derisk < halt <= 1.0
    }
  }

  /** What one bar tells the machine: the composite shock, the smooth sizing multiplier,
      and the two exogenous flags. */
  datatype Reading = Reading(shock: real, haircut: real, cusum: bool, panic: bool) {
    predicate Emergency() { cusum && panic }
  }

  datatype State = State(tier: Tier, bars: nat, step: nat)

  datatype Decision = Decision(tier: Tier, haircut: real, halted: bool, derisking: bool, throttled: bool)

  const INITIAL := State(Normal, 0, 0)

  function Candidate(cfg: Config, r: Reading): Tier {
    if r.Emergency() || r.shock >= cfg.halt then Halt
    else if r.shock >= cfg.derisk then Derisk
    else if r.shock >= cfg.caution then Caution
    else Normal
  }

  function Step(cfg: Config, s: State, r: Reading): State {
    var candidate := Candidate(cfg, r);
    var hold := State(s.tier, s.bars + 1, s.step + 1);
    if candidate.Level() > s.tier.Level() then State(candidate, 1, s.step + 1)
    else if candidate == s.tier then hold
    else if s.tier.Locked() then
      if s.bars >= cfg.dwell && r.shock < cfg.recovery then State(Lower(s.tier), 1, s.step + 1) else hold
    else if s.tier.Caution? then
      if r.shock < cfg.recovery then State(Normal, 1, s.step + 1) else hold
    else hold
  }

  /** The order sent to execution for the tier just entered. */
  function Decide(t: Tier, r: Reading): (d: Decision)
    ensures d.tier == t
    ensures t.Locked() ==> d.haircut == 0.0
    ensures 0.0 <= r.haircut ==> 0.0 <= d.haircut <= r.haircut
    ensures t.Caution? ==> d.haircut <= 0.5 && d.haircut <= r.haircut && (d.haircut == 0.5 || d.haircut == r.haircut)
    ensures t.Normal? ==> d.haircut == r.haircut
    ensures (d.halted <==> t.Halt?) && (d.derisking <==> t.Derisk?) && (d.throttled <==> t.Caution?)
  {
    var h := if t.Locked() then 0.0 else if t.Caution? then Min(0.5, r.haircut) else r.haircut;
    Decision(t, h, t.Halt?, t.Derisk?, t.Caution?)
  }

  /** The state after a run of bars. */
  function Run(cfg: Config, s: State, rs: seq<Reading>): State {
    if rs == [] then s else Step(cfg, Run(cfg, s, rs[..|rs| - 1]), rs[|rs| - 1])
  }

  /** The tier emitted at each bar of a run. */
  function Trace(cfg: Config, s: State, rs: seq<Reading>): (t: seq<Tier>)
    ensures |t| == |rs|
    ensures rs != [] ==> t[|t| - 1] == Run(cfg, s, rs).tier
  {
    if rs == [] then [] else Trace(cfg, s, rs[..|rs| - 1]) + [Run(cfg, s, rs).tier]
  }

  // ---- one bar ----

  /** Without an emergency the tier a bar demands is the number of thresholds its shock
      has reached, because they are in order; an emergency demands HALT. */
  lemma CandidateCountsThresholds(cfg: Config, r: Reading)
    requires cfg.Valid()
    ensures r.cusum && r.panic ==> Candidate(cfg, r).Halt?
    ensures !(r.cusum && r.panic) ==>
      Candidate(cfg, r).Level() == (if r.shock >= cfg.caution then 1 else 0) + (if r.shock >= cfg.derisk then 1 else 0)
                                   + (if r.shock >= cfg.halt then 1 else 0)
  {
  }

  /** The tier is never below what the bar demands, never rises above it, and falls at most
      one level. */
  lemma StepIsSafe(cfg: Config, s: State, r: Reading)
    requires cfg.Valid()
    ensures Step(cfg, s, r).tier.Level() >= Candidate(cfg, r).Level()
    ensures Step(cfg, s, r).tier.Level() > s.tier.Level() ==> Step(cfg, s, r).tier == Candidate(cfg, r)
    ensures Step(cfg, s, r).tier.Level() >= s.tier.Level() - 1
    ensures Step(cfg, s, r).tier.Level() < s.tier.Level() ==> r.shock < cfg.recovery && !(r.cusum && r.panic)
  {
  }

  // ---- the counter ----

  /** The length of the longest constant ending of a trace. */
  ghost function Stay(t: seq<Tier>): (n: nat)
    ensures n <= |t|
    ensures t != [] ==> n >= 1
    ensures forall k :: |t| - n <= k < |t| ==> t[k] == t[|t| - 1]
    ensures n < |t| ==> t[|t| - n - 1] != t[|t| - 1]
  {
    if t == [] then 0
    else
      var m := |t| - 1;
      if m >= 1 && t[m - 1] == t[m] then Stay(t[..m]) + 1 else 1
  }

  /** From the initial state the bar counter is the length of the current stay. */
  lemma {:induction false} CounterIsStay(cfg: Config, rs: seq<Reading>)
    ensures Run(cfg, INITIAL, rs).bars == Stay(Trace(cfg, INITIAL, rs))
    ensures Run(cfg, INITIAL, rs).step == |rs|
  {
    hide Step;
    if rs != [] {
      var n := |rs| - 1;
      CounterIsStay(cfg, rs[..n]);
      StepCounts(cfg, Run(cfg, INITIAL, rs[..n]), rs[n]);
      var t := Trace(cfg, INITIAL, rs);
      assert t[..n] == Trace(cfg, INITIAL, rs[..n]);
      if n >= 1 {
        assert t[n - 1] == Run(cfg, INITIAL, rs[..n]).tier;
      }
    }
  }

  /** A bar that keeps the tier adds one to the counter; one that changes it restarts it. */
  lemma StepCounts(cfg: Config, s: State, r: Reading)
    ensures Step(cfg, s, r).bars == if Step(cfg, s, r).tier == s.tier then s.bars + 1 else 1
    ensures Step(cfg, s, r).step == s.step + 1
  {
  }

  /** Every step down out of DERISK or HALT ends a stay of at least the dwell time in
      that very tier, on a bar whose shock is below the recovery barrier. */
  lemma {:induction false} StepDownAfterDwell(cfg: Config, rs: seq<Reading>, i: nat)
    requires cfg.Valid() && i + 1 < |rs|
    requires Trace(cfg, INITIAL, rs)[i].Locked()
    requires Trace(cfg, INITIAL, rs)[i + 1].Level() < Trace(cfg, INITIAL, rs)[i].Level()
    ensures i + 1 >= cfg.dwell && rs[i + 1].shock < cfg.recovery
    ensures forall k :: i + 1 - cfg.dwell <= k <= i ==> Trace(cfg, INITIAL, rs)[k] == Trace(cfg, INITIAL, rs)[i]
  {
    hide Step, Stay, Tier.Level, Tier.Locked;
    var before := rs[..i + 1];
    TracePrefix(cfg, INITIAL, rs, i + 1);
    TraceAt(cfg, INITIAL, rs, i);
    TraceAt(cfg, INITIAL, rs, i + 1);
    CounterIsStay(cfg, before);
    var t := Trace(cfg, INITIAL, before);
    RunNext(cfg, INITIAL, rs, i + 1);
    StepDownNeeds(cfg, Run(cfg, INITIAL, before), rs[i + 1]);
    forall k | i + 1 - cfg.dwell <= k <= i
      ensures Trace(cfg, INITIAL, rs)[k] == Trace(cfg, INITIAL, rs)[i]
    {
      assert t[k] == t[|t| - 1];
    }
  }

  lemma StepDownNeeds(cfg: Config, s: State, r: Reading)
    requires s.tier.Locked() && Step(cfg, s, r).tier.Level() < s.tier.Level()
    ensures s.bars >= cfg.dwell && r.shock < cfg.recovery
  {
  }

  lemma {:induction false} RunNext(cfg: Config, s: State, rs: seq<Reading>, i: nat)
    requires i < |rs|
    ensures Run(cfg, s, rs[..i + 1]) == Step(cfg, Run(cfg, s, rs[..i]), rs[i])
  {
    hide Step;
    assert rs[..i + 1][..i] == rs[..i];
  }

  lemma {:induction false} TraceAt(cfg: Config, s: State, rs: seq<Reading>, i: nat)
    requires i < |rs|
    ensures Trace(cfg, s, rs)[i] == Run(cfg, s, rs[..i + 1]).tier
  {
    hide Step, Run;
    TracePrefix(cfg, s, rs, i + 1);
  }

  lemma {:induction false} TracePrefix(cfg: Config, s: State, rs: seq<Reading>, n: nat)
    requires n <= |rs|
    ensures Trace(cfg, s, rs)[..n] == Trace(cfg, s, rs[..n])
  {
    hide Step;
    if n < |rs| {
      var m := |rs| - 1;
      TracePrefix(cfg, s, rs[..m], n);
      assert rs[..m][..n] == rs[..n];
    } else {
      assert rs[..n] == rs;
    }
  }

  // ---- anti-chattering ----

  /** How many bars of a run step down out of DERISK or HALT. */
  ghost function StepDowns(cfg: Config, s: State, rs: seq<Reading>): nat {
    if rs == [] then 0
    else
      var before := Run(cfg, s, rs[..|rs| - 1]).tier;
      StepDowns(cfg, s, rs[..|rs| - 1])
      + if before.Locked() && Run(cfg, s, rs).tier.Level() < before.Level() then 1 else 0
  }

  /** Each such step down is paid for by a full dwell time: in n bars there are at most
      n / dwell of them, and the bars already spent locked are still in hand. */
  lemma {:induction false} AntiChattering(cfg: Config, rs: seq<Reading>)
    requires cfg.Valid()
    ensures cfg.dwell * StepDowns(cfg, INITIAL, rs)
            + Held(Run(cfg, INITIAL, rs)) <= |rs|
  {
    hide Step;
    if rs != [] {
      var n := |rs| - 1;
      AntiChattering(cfg, rs[..n]);
      LockedHasBars(cfg, rs[..n]);
      var s := Run(cfg, INITIAL, rs[..n]);
      StepPays(cfg, s, rs[n]);
      var k := StepDowns(cfg, INITIAL, rs[..n]);
      assert cfg.dwell * (k + 1) == cfg.dwell * k + cfg.dwell;
    }
  }

  /** The bars a locked tier has accumulated. */
  ghost function Held(s: State): nat { if s.tier.Locked() then s.bars else 0 }

  lemma StepPays(cfg: Config, s: State, r: Reading)
    requires cfg.Valid() && (!s.tier.Normal? ==> s.bars >= 1)
    ensures Held(Step(cfg, s, r)) <= Held(s) + 1
    ensures s.tier.Locked() && Step(cfg, s, r).tier.Level() < s.tier.Level() ==>
      cfg.dwell + Held(Step(cfg, s, r)) <= Held(s) + 1
  {
  }

  lemma {:induction false} LockedHasBars(cfg: Config, rs: seq<Reading>)
    ensures !Run(cfg, INITIAL, rs).tier.Normal? ==> Run(cfg, INITIAL, rs).bars >= 1
  {
    if rs != [] {
      LockedHasBars(cfg, rs[..|rs| - 1]);
    }
  }

  // ---- recovery ----

  /** The number of calm bars that lead from a state back to NORMAL. */
  function RecoveryTime(cfg: Config, s: State): (n: nat)
    ensures n == 0 <==> s.tier.Normal?
  {
    var wait := if s.bars >= cfg.dwell then 0 else cfg.dwell - s.bars;
    match s.tier
    case Normal => 0
    case Caution => 1
    case Derisk => wait + 2
    case Halt => wait + cfg.dwell + 2
  }

  predicate Calm(cfg: Config, r: Reading) { r.shock < cfg.recovery && !r.Emergency() }

  /** No bar brings NORMAL closer by more than one, and a calm one by exactly one. */
  lemma StepRecovers(cfg: Config, s: State, r: Reading)
    requires cfg.Valid()
    ensures RecoveryTime(cfg, Step(cfg, s, r)) + 1 >= RecoveryTime(cfg, s)
    ensures Calm(cfg, r) ==>
      RecoveryTime(cfg, Step(cfg, s, r)) == if s.tier.Normal? then 0 else RecoveryTime(cfg, s) - 1
  {
  }

  /** No run whatever reaches NORMAL in fewer bars than the recovery time. */
  lemma {:induction false} NoEarlyRecovery(cfg: Config, s: State, rs: seq<Reading>)
    requires cfg.Valid()
    ensures RecoveryTime(cfg, Run(cfg, s, rs)) + |rs| >= RecoveryTime(cfg, s)
    ensures Run(cfg, s, rs).tier.Normal? ==> |rs| >= RecoveryTime(cfg, s)
  {
    if rs != [] {
      var n := |rs| - 1;
      NoEarlyRecovery(cfg, s, rs[..n]);
      StepRecovers(cfg, Run(cfg, s, rs[..n]), rs[n]);
    }
  }

  /** A calm run is back at NORMAL exactly from the recovery time on, and stays there. */
  lemma {:induction false} CalmRecovery(cfg: Config, s: State, rs: seq<Reading>)
    requires cfg.Valid()
    requires forall i :: 0 <= i < |rs| ==> Calm(cfg, rs[i])
    ensures Run(cfg, s, rs).tier.Normal? <==> |rs| >= RecoveryTime(cfg, s)
    ensures !Run(cfg, s, rs).tier.Normal? ==> RecoveryTime(cfg, Run(cfg, s, rs)) == RecoveryTime(cfg, s) - |rs|
  {
    if rs != [] {
      var n := |rs| - 1;
      CalmRecovery(cfg, s, rs[..n]);
      StepRecovers(cfg, Run(cfg, s, rs[..n]), rs[n]);
    }
  }

  /** From the bar that enters HALT, NORMAL is 2 * dwell + 1 bars away: never fewer, and
      exactly that many when they are calm. */
  lemma {:induction false} HaltLastsTwoDwells(cfg: Config, s: State, entering: Reading, rs: seq<Reading>)
    requires cfg.Valid() && !s.tier.Halt? && Candidate(cfg, entering).Halt?
    ensures Run(cfg, Step(cfg, s, entering), rs).tier.Normal? ==> |rs| >= 2 * cfg.dwell + 1
    ensures (forall i :: 0 <= i < |rs| ==> Calm(cfg, rs[i])) ==>
      (Run(cfg, Step(cfg, s, entering), rs).tier.Normal? <==> |rs| >= 2 * cfg.dwell + 1)
  {
    var h := Step(cfg, s, entering);
    assert h == State(Halt, 1, s.step + 1);
    NoEarlyRecovery(cfg, h, rs);
    if forall i :: 0 <= i < |rs| ==> Calm(cfg, rs[i]) {
      CalmRecovery(cfg, h, rs);
    }
  }

  // ---- is more shock ever safer? ----

  /** q is at least as alarming as r at every bar. */
  ghost predicate Harsher(rs: seq<Reading>, qs: seq<Reading>) {
    && |rs| == |qs|
    && forall i :: 0 <= i < |rs| ==>
         rs[i].shock <= qs[i].shock && (rs[i].Emergency() ==> qs[i].Emergency())
  }

  /** Harsher bars never end in a milder tier. */
  ghost predicate MonotoneInShocks(cfg: Config) {
    forall rs: seq<Reading>, qs: seq<Reading> :: Harsher(rs, qs) ==>
      Run(cfg, INITIAL, rs).tier.Level() <= Run(cfg, INITIAL, qs).tier.Level()
  }

  /** The machine is monotone in the shocks exactly when the dwell time is one bar:
      otherwise an earlier escalation can recover earlier. */
  lemma MonotoneIffNoDwell(cfg: Config)
    requires cfg.Valid()
    ensures MonotoneInShocks(cfg) <==> cfg.dwell == 1
  {
    if cfg.dwell == 1 {
      forall rs: seq<Reading>, qs: seq<Reading> | Harsher(rs, qs)
        ensures Run(cfg, INITIAL, rs).tier.Level() <= Run(cfg, INITIAL, qs).tier.Level()
      {
        MonotoneWithoutDwell(cfg, rs, qs);
      }
    } else {
      var rs, qs := EarlierEscalationRecoversEarlier(cfg);
    }
  }

  lemma {:induction false} MonotoneWithoutDwell(cfg: Config, rs: seq<Reading>, qs: seq<Reading>)
    requires cfg.Valid() && cfg.dwell == 1 && Harsher(rs, qs)
    ensures Run(cfg, INITIAL, rs).tier.Level() <= Run(cfg, INITIAL, qs).tier.Level()
  {
    hide Step, Tier.Level;
    if rs != [] {
      var n := |rs| - 1;
      MonotoneWithoutDwell(cfg, rs[..n], qs[..n]);
      LockedHasBars(cfg, rs[..n]);
      StepMonotone(cfg, Run(cfg, INITIAL, rs[..n]), Run(cfg, INITIAL, qs[..n]), rs[n], qs[n]);
    } else {
      assert qs == [];
    }
  }

  /** With a one-bar dwell time every locked state is ready to step down, so a bar keeps
      the order of two states. */
  lemma StepMonotone(cfg: Config, s: State, t: State, r: Reading, q: Reading)
    requires cfg.Valid() && cfg.dwell == 1 && (!s.tier.Normal? ==> s.bars >= 1)
    requires s.tier.Level() <= t.tier.Level()
    requires r.shock <= q.shock && (r.Emergency() ==> q.Emergency())
    ensures Step(cfg, s, r).tier.Level() <= Step(cfg, t, q).tier.Level()
  {
    StepIsSafe(cfg, t, q);
  }

  /** A severe bar put before the other run's only severe bar, then dwell - 1 quiet bars. */
  lemma EarlierEscalationRecoversEarlier(cfg: Config) returns (rs: seq<Reading>, qs: seq<Reading>)
    requires cfg.Valid() && cfg.dwell >= 2
    ensures Harsher(rs, qs)
    ensures Run(cfg, INITIAL, rs).tier == Derisk && Run(cfg, INITIAL, qs).tier == Caution
  {
    hide Step;
    var quiet, severe := QUIET, Severe(cfg);
    var tail := seq(cfg.dwell - 1, i => quiet);
    rs, qs := [quiet, severe] + tail, [severe, severe] + tail;
    RunSplit(cfg, INITIAL, [quiet, severe], tail);
    RunSplit(cfg, INITIAL, [severe, severe], tail);
    RunOfTwo(cfg, quiet, severe);
    RunOfTwo(cfg, severe, severe);
    SevereSteps(cfg);
    QuietDerisk(cfg, State(Derisk, 1, 2), tail);
    var m := cfg.dwell - 2;
    QuietDerisk(cfg, State(Derisk, 2, 2), tail[..m]);
    assert tail[..m] + [quiet] == tail;
    assert tail[..|tail| - 1] == tail[..m];
  }

  const QUIET := Reading(0.0, 1.0, false, false)

  function Severe(cfg: Config): Reading { Reading(cfg.derisk, 1.0, false, false) }

  lemma SevereSteps(cfg: Config)
    requires cfg.Valid()
    ensures Step(cfg, Step(cfg, INITIAL, QUIET), Severe(cfg)) == State(Derisk, 1, 2)
    ensures Step(cfg, Step(cfg, INITIAL, Severe(cfg)), Severe(cfg)) == State(Derisk, 2, 2)
    ensures forall s: State | s.tier.Derisk? && s.bars >= cfg.dwell :: Step(cfg, s, QUIET).tier.Caution?
  {
  }

  lemma {:induction false} RunOfTwo(cfg: Config, a: Reading, b: Reading)
    ensures Run(cfg, INITIAL, [a, b]) == Step(cfg, Step(cfg, INITIAL, a), b)
  {
    hide Step;
    var one, two := [a], [a, b];
    assert two[..|two| - 1] == one;
    assert one[..|one| - 1] == [];
    assert Run(cfg, INITIAL, one) == Step(cfg, Run(cfg, INITIAL, []), a);
    assert Run(cfg, INITIAL, two) == Step(cfg, Run(cfg, INITIAL, one), b);
  }

  lemma {:induction false} RunSplit(cfg: Config, s: State, rs: seq<Reading>, qs: seq<Reading>)
    ensures Run(cfg, s, rs + qs) == Run(cfg, Run(cfg, s, rs), qs)
  {
    if qs == [] {
      assert rs + qs == rs;
    } else {
      var n := |qs| - 1;
      RunSplit(cfg, s, rs, qs[..n]);
      assert (rs + qs)[..|rs + qs| - 1] == rs + qs[..n];
    }
  }

  /** Quiet bars keep DERISK until the counter reaches the dwell time. */
  lemma {:induction false} QuietDerisk(cfg: Config, s: State, rs: seq<Reading>)
    requires cfg.Valid() && s.tier.Derisk? && s.bars + |rs| <= cfg.dwell
    requires forall i :: 0 <= i < |rs| ==> Calm(cfg, rs[i])
    ensures Run(cfg, s, rs).tier.Derisk? && Run(cfg, s, rs).bars == s.bars + |rs|
  {
    if rs != [] {
      QuietDerisk(cfg, s, rs[..|rs| - 1]);
    }
  }

  // ---- directional consensus ----

  datatype Bucket = Positive | Negative | Neutral

  predicate InBucket(forecast: real, band: real, b: Bucket) {
    match b
    case Positive => forecast > band
    case Negative => forecast < -band
    case Neutral => Abs(forecast) <= band
  }

  /** The weights of the forecasts that fall in one bucket, zero elsewhere. */
  function Masked(forecasts: seq<real>, weights: seq<real>, band: real, b: Bucket): (r: seq<real>)
    requires |forecasts| == |weights|
    ensures |r| == |weights|
    ensures forall i :: 0 <= i < |r| ==> r[i] == if InBucket(forecasts[i], band, b) then weights[i] else 0.0
  {
    seq(|weights|, i requires 0 <= i < |weights| => if InBucket(forecasts[i], band, b) then weights[i] else 0.0)
  }

  /** The share of the weight that forecasts one direction. */
  function Consensus(forecasts: seq<real>, weights: seq<real>, band: real, b: Bucket): real
    requires |forecasts| == |weights|
  {
    Max(0.0, Sum(Masked(forecasts, weights, band, b)))
  }

  /** Each share is the total of the weights whose forecast lies beyond the band on that side,
      or inside it. */
  lemma {:induction false} ConsensusCounts(forecasts: seq<real>, weights: seq<real>, band: real, up: seq<real>,
                                           down: seq<real>, flat: seq<real>)
    requires |forecasts| == |weights| == |up| == |down| == |flat| && NonNeg(weights) && band >= 0.0
    requires forall i :: 0 <= i < |up| ==> up[i] == if forecasts[i] > band then weights[i] else 0.0
    requires forall i :: 0 <= i < |down| ==> down[i] == if forecasts[i] < -band then weights[i] else 0.0
    requires forall i :: 0 <= i < |flat| ==> flat[i] == if -band <= forecasts[i] <= band then weights[i] else 0.0
    ensures Consensus(forecasts, weights, band, Positive) == Sum(up)
    ensures Consensus(forecasts, weights, band, Negative) == Sum(down)
    ensures Consensus(forecasts, weights, band, Neutral) == Sum(flat)
  {
    hide Sum;
    SumNonNeg(up);
    SumNonNeg(down);
    SumNonNeg(flat);
    assert Masked(forecasts, weights, band, Positive) == up;
    assert Masked(forecasts, weights, band, Negative) == down;
    assert Masked(forecasts, weights, band, Neutral) == flat;
  }

  /** The three buckets split the weights: nothing counted twice, nothing lost. */
  lemma {:induction false} ConsensusSplitsTheWeights(forecasts: seq<real>, weights: seq<real>, band: real)
    requires |forecasts| == |weights| && NonNeg(weights) && band >= 0.0
    ensures forall b :: Consensus(forecasts, weights, band, b) >= 0.0
    ensures Consensus(forecasts, weights, band, Positive) + Consensus(forecasts, weights, band, Negative)
            + Consensus(forecasts, weights, band, Neutral) == Sum(weights)
  {
    hide Sum, Masked;
    var up := Masked(forecasts, weights, band, Positive);
    var down := Masked(forecasts, weights, band, Negative);
    var flat := Masked(forecasts, weights, band, Neutral);
    SumNonNeg(up);
    SumNonNeg(down);
    SumNonNeg(flat);
    SumAdd(up, down, Plus(up, down));
    SumAdd(Plus(up, down), flat, weights);
  }
}
