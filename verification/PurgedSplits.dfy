/** CombinatorialPurgedCV.split: test blocks, interval purging, embargo and the starvation guard. */
module PurgedSplits {
  import opened Results
  import opened Rounding
  import opened Combinatorics
  import opened Partition

  datatype PurgedSplit = PurgedSplit(splitIdx: nat, train: seq<nat>, test: seq<nat>, purged: seq<nat>,
                                     embargoed: seq<nat>, testGroups: seq<nat>, trainGroups: seq<nat>)

  datatype Error = TooFewSamples | MissingTimes | DimensionMismatch | CausalityViolated | Starved(fold: nat)

  /** The lifespans of the samples, validated: one start and one end each, start <= end. */
  datatype Times = Times(starts: seq<real>, ends: seq<real>) {
    ghost predicate Valid(n: nat) {
      |starts| == |ends| == n && forall i :: 0 <= i < n ==> starts[i] <= ends[i]
    }
  }

  // ---- index lists ----

  ghost predicate InBlock(x: nat, b: Block) { b.lo <= x < b.hi }

  function Range(lo: nat, hi: nat): (r: seq<nat>)
    ensures |r| == if lo <= hi then hi - lo else 0
    ensures forall i :: 0 <= i < |r| ==> r[i] == lo + i
  {
    if lo <= hi then seq(hi - lo, i requires 0 <= i < hi - lo => lo + i) else []
  }

  /** The samples of the listed groups, concatenated. */
  function Members(blocks: seq<Block>, groups: seq<nat>): seq<nat>
    requires forall i :: 0 <= i < |groups| ==> groups[i] < |blocks|
  {
    if groups == [] then []
    else
      var n := |groups| - 1;
      Members(blocks, groups[..n]) + Range(blocks[groups[n]].lo, blocks[groups[n]].hi)
  }

  /** The entries whose flag equals keep, in order. */
  function Keep(xs: seq<nat>, mask: seq<bool>, keep: bool): seq<nat>
    requires |xs| == |mask|
  {
    if xs == [] then []
    else
      var n := |xs| - 1;
      Keep(xs[..n], mask[..n], keep) + if mask[n] == keep then [xs[n]] else []
  }

  lemma {:induction false} KeepExact(xs: seq<nat>, mask: seq<bool>, keep: bool)
    requires |xs| == |mask|
    ensures forall x: nat :: x in Keep(xs, mask, keep) <==> exists i :: 0 <= i < |xs| && xs[i] == x && mask[i] == keep
    ensures Increasing(xs) ==> Increasing(Keep(xs, mask, keep))
    ensures |Keep(xs, mask, keep)| <= |xs|
  {
    if xs != [] {
      var n := |xs| - 1;
      KeepExact(xs[..n], mask[..n], keep);
      var r, r' := Keep(xs[..n], mask[..n], keep), Keep(xs, mask, keep);
      forall x: nat | x in r' ensures exists i :: 0 <= i < |xs| && xs[i] == x && mask[i] == keep {
        if x in r {
          var i :| 0 <= i < n && xs[..n][i] == x && mask[..n][i] == keep;
          assert xs[i] == x && mask[i] == keep;
        } else {
          assert xs[n] == x && mask[n] == keep;
        }
      }
      forall i | 0 <= i < |xs| && mask[i] == keep ensures xs[i] in r' {
        if i < n {
          assert xs[..n][i] == xs[i] && mask[..n][i] == keep;
          assert xs[i] in r;
        } else {
          assert r'[|r|] == xs[n];
        }
      }
      if Increasing(xs) && mask[n] == keep {
        forall j | 0 <= j < |r| ensures r[j] < xs[n] {
          assert r[j] in r;
          var i :| 0 <= i < n && xs[..n][i] == r[j] && mask[..n][i] == keep;
          assert xs[i] < xs[n];
        }
      }
    }
  }

  lemma {:induction false} MembersExact(blocks: seq<Block>, groups: seq<nat>)
    requires forall i :: 0 <= i < |groups| ==> groups[i] < |blocks|
    ensures forall x: nat :: x in Members(blocks, groups) <==>
      exists i :: 0 <= i < |groups| && InBlock(x, blocks[groups[i]])
  {
    if groups != [] {
      var n := |groups| - 1;
      var init, last := groups[..n], blocks[groups[n]];
      MembersExact(blocks, init);
      var m, r := Members(blocks, init), Range(last.lo, last.hi);
      forall x: nat ensures x in r <==> InBlock(x, last) {
        if InBlock(x, last) {
          assert r[x - last.lo] == x;
        }
      }
      forall x: nat ensures x in m + r <==> exists i :: 0 <= i < |groups| && InBlock(x, blocks[groups[i]]) {
        if x in m {
          var i :| 0 <= i < n && InBlock(x, blocks[init[i]]);
          assert InBlock(x, blocks[groups[i]]);
        }
        if i :| 0 <= i < |groups| && InBlock(x, blocks[groups[i]]) {
          if i < n {
            assert InBlock(x, blocks[init[i]]);
          }
        }
      }
    }
  }

  /** Consecutive blocks make increasing group lists into increasing sample lists. */
  lemma {:induction false} MembersIncreasing(n: nat, splits: nat, groups: seq<nat>)
    requires splits > 0 && Increasing(groups) && forall i :: 0 <= i < |groups| ==> groups[i] < splits
    ensures Increasing(Members(Blocks(n, splits), groups))
  {
    if groups != [] {
      var k := |groups| - 1;
      var b, init := Blocks(n, splits), groups[..k];
      MembersIncreasing(n, splits, init);
      MembersExact(b, init);
      var m, r := Members(b, init), Range(b[groups[k]].lo, b[groups[k]].hi);
      forall i, j | 0 <= i < |m| && 0 <= j < |r| ensures m[i] < r[j] {
        assert m[i] in m;
        var g :| 0 <= g < k && InBlock(m[i], b[init[g]]);
        assert groups[g] < groups[k];
        CutMonotone(n, splits, groups[g] + 1, groups[k]);
      }
    }
  }

  // ---- purging and embargo ----

  /** The lifespan [s, e] of a training sample meets the test interval [ts, te]. */
  predicate Overlaps(s: real, e: real, ts: real, te: real) { s <= te && e >= ts }

  predicate InEmbargo(s: real, te: real, embargo: real) { s > te && s <= te + embargo }

  /** A test block's interval runs from its first start to its last end. */
  function BlockStart(t: Times, b: Block): real
    requires b.lo < |t.starts|
  {
    t.starts[b.lo]
  }

  function BlockEnd(t: Times, b: Block): real
    requires 0 < b.hi <= |t.ends|
  {
    t.ends[b.hi - 1]
  }

  /** Every block is non-empty and lies within the samples. */
  ghost predicate Usable(t: Times, blocks: seq<Block>, combo: seq<nat>) {
    && |t.starts| == |t.ends|
    && (forall m :: 0 <= m < |combo| ==> combo[m] < |blocks|)
    && (forall g :: 0 <= g < |blocks| ==> blocks[g].lo < blocks[g].hi <= |t.starts|)
  }

  /** Sample x's lifespan meets the test interval of block b. */
  ghost predicate Meets(t: Times, b: Block, x: nat) {
    && b.lo < b.hi <= |t.starts| == |t.ends| && x < |t.starts|
    && Overlaps(t.starts[x], t.ends[x], BlockStart(t, b), BlockEnd(t, b))
  }

  /** Sample x starts within the embargo after block b. */
  ghost predicate Follows(t: Times, b: Block, embargo: real, x: nat) {
    && b.lo < b.hi <= |t.starts| == |t.ends| && x < |t.starts|
    && InEmbargo(t.starts[x], BlockEnd(t, b), embargo)
  }

  ghost predicate Purged(t: Times, blocks: seq<Block>, combo: seq<nat>, x: nat) {
    exists m :: 0 <= m < |combo| && combo[m] < |blocks| && Meets(t, blocks[combo[m]], x)
  }

  ghost predicate Embargoed(t: Times, blocks: seq<Block>, combo: seq<nat>, embargo: real, x: nat) {
    exists m :: 0 <= m < |combo| && combo[m] < |blocks| && Follows(t, blocks[combo[m]], embargo, x)
  }

  method PurgeMask(t: Times, blocks: seq<Block>, combo: seq<nat>, cand: seq<nat>) returns (mask: seq<bool>)
    requires Usable(t, blocks, combo) && forall i :: 0 <= i < |cand| ==> cand[i] < |t.starts|
    ensures |mask| == |cand|
    ensures forall i :: 0 <= i < |cand| ==> (mask[i] <==> Purged(t, blocks, combo, cand[i]))
  {
    mask := seq(|cand|, i => false);
    for m := 0 to |combo|
      invariant |mask| == |cand|
      invariant forall i :: 0 <= i < |cand| ==> (mask[i] <==> Purged(t, blocks, combo[..m], cand[i]))
    {
      var ts, te := BlockStart(t, blocks[combo[m]]), BlockEnd(t, blocks[combo[m]]);
      var prev := mask;
      mask := seq(|cand|, i
        requires 0 <= i < |cand| && |prev| == |cand| && |t.starts| == |t.ends| && cand[i] < |t.starts| =>
        prev[i] || Overlaps(t.starts[cand[i]], t.ends[cand[i]], ts, te));
      forall i | 0 <= i < |cand| ensures mask[i] <==> Purged(t, blocks, combo[..m + 1], cand[i]) {
      }
    }
    assert combo[..|combo|] == combo;
  }

  method EmbargoMask(t: Times, blocks: seq<Block>, combo: seq<nat>, embargo: real, cand: seq<nat>)
    returns (mask: seq<bool>)
    requires Usable(t, blocks, combo) && forall i :: 0 <= i < |cand| ==> cand[i] < |t.starts|
    ensures |mask| == |cand|
    ensures forall i :: 0 <= i < |cand| ==> (mask[i] <==> Embargoed(t, blocks, combo, embargo, cand[i]))
  {
    mask := seq(|cand|, i => false);
    for m := 0 to |combo|
      invariant |mask| == |cand|
      invariant forall i :: 0 <= i < |cand| ==> (mask[i] <==> Embargoed(t, blocks, combo[..m], embargo, cand[i]))
    {
      var te := BlockEnd(t, blocks[combo[m]]);
      var prev := mask;
      mask := seq(|cand|, i requires 0 <= i < |cand| && |prev| == |cand| && cand[i] < |t.starts| =>
        prev[i] || InEmbargo(t.starts[cand[i]], te, embargo));
      forall i | 0 <= i < |cand| ensures mask[i] <==> Embargoed(t, blocks, combo[..m + 1], embargo, cand[i]) {
      }
    }
    assert combo[..|combo|] == combo;
  }

  // ---- one fold ----

  /** The groups a fold may train on: all others, or only the earlier ones. */
  function TrainGroups(cfg: Config, combo: seq<nat>, upTo: nat): seq<nat> {
    if upTo == 0 then []
    else TrainGroups(cfg, combo, upTo - 1) + (if Trainable(cfg, combo, upTo - 1) then [upTo - 1] else [])
  }

  predicate Trainable(cfg: Config, combo: seq<nat>, g: nat) {
    if cfg.forwardChaining then combo != [] && g < combo[0] else g !in combo
  }

  lemma {:induction false} TrainGroupsExact(cfg: Config, combo: seq<nat>, upTo: nat)
    ensures Increasing(TrainGroups(cfg, combo, upTo))
    ensures forall g: nat :: g in TrainGroups(cfg, combo, upTo) <==> g < upTo && Trainable(cfg, combo, g)
  {
    if upTo > 0 {
      TrainGroupsExact(cfg, combo, upTo - 1);
      var p := TrainGroups(cfg, combo, upTo - 1);
      forall i | 0 <= i < |p| ensures p[i] < upTo - 1 {
        assert p[i] in p;
      }
    }
  }

  /** The contract of one fold: which samples land in which of the four lists. */
  ghost predicate FoldOf(cfg: Config, n: nat, t: Times, embargo: real, combo: seq<nat>, s: PurgedSplit)
    requires cfg.nSplits > 0
  {
    var b := Blocks(n, cfg.nSplits);
    && s.testGroups == combo && s.trainGroups == TrainGroups(cfg, combo, cfg.nSplits)
    && Increasing(s.train) && Increasing(s.test) && Increasing(s.purged) && Increasing(s.embargoed)
    && (forall x: nat :: x in s.test <==> InGroups(b, combo, x))
    && (forall x: nat :: x in s.purged <==> InGroups(b, s.trainGroups, x) && Purged(t, b, combo, x))
    && (forall x: nat :: x in s.embargoed <==>
         (InGroups(b, s.trainGroups, x) && !Purged(t, b, combo, x) && Embargoed(t, b, combo, embargo, x)))
    && (forall x: nat :: x in s.train <==>
         (InGroups(b, s.trainGroups, x) && !Purged(t, b, combo, x) && !Embargoed(t, b, combo, embargo, x)))
  }

  ghost predicate InGroups(blocks: seq<Block>, groups: seq<nat>, x: nat) {
    exists i :: 0 <= i < |groups| && groups[i] < |blocks| && InBlock(x, blocks[groups[i]])
  }

  /** Step 3: drop candidates whose lifespan meets a test interval. */
  method Purge(t: Times, blocks: seq<Block>, combo: seq<nat>, cand: seq<nat>) returns (purged: seq<nat>, rest: seq<nat>)
    requires Usable(t, blocks, combo) && Increasing(cand) && forall i :: 0 <= i < |cand| ==> cand[i] < |t.starts|
    ensures Increasing(purged) && Increasing(rest)
    ensures forall x: nat :: x in purged <==> x in cand && Purged(t, blocks, combo, x)
    ensures forall x: nat :: x in rest <==> x in cand && !Purged(t, blocks, combo, x)
    ensures forall i :: 0 <= i < |rest| ==> rest[i] < |t.starts|
  {
    hide Purged, Increasing, Usable;
    var mask := PurgeMask(t, blocks, combo, cand);
    purged, rest := Keep(cand, mask, true), Keep(cand, mask, false);
    KeepExact(cand, mask, true);
    KeepExact(cand, mask, false);
    forall i | 0 <= i < |rest| ensures rest[i] < |t.starts| {
      assert rest[i] in rest;
    }
  }

  /** Step 4: drop what remains within the embargo after a test interval. */
  method Embargo(t: Times, blocks: seq<Block>, combo: seq<nat>, embargo: real, rest: seq<nat>)
    returns (embargoed: seq<nat>, train: seq<nat>)
    requires Usable(t, blocks, combo) && Increasing(rest) && forall i :: 0 <= i < |rest| ==> rest[i] < |t.starts|
    ensures Increasing(embargoed) && Increasing(train)
    ensures forall x: nat :: x in embargoed <==> x in rest && Embargoed(t, blocks, combo, embargo, x)
    ensures forall x: nat :: x in train <==> x in rest && !Embargoed(t, blocks, combo, embargo, x)
  {
    hide Embargoed, Increasing, Usable;
    var mask := EmbargoMask(t, blocks, combo, embargo, rest);
    embargoed, train := Keep(rest, mask, true), Keep(rest, mask, false);
    KeepExact(rest, mask, true);
    KeepExact(rest, mask, false);
  }

  method SplitFold(cfg: Config, n: nat, t: Times, embargo: real, combo: seq<nat>, idx: nat) returns (s: PurgedSplit)
    requires cfg.Valid() && |t.starts| == n && Usable(t, Blocks(n, cfg.nSplits), combo) && Increasing(combo)
    ensures s.splitIdx == idx && FoldOf(cfg, n, t, embargo, combo, s)
  {
    hide Purged, Embargoed, Increasing, InGroups;
    var blocks := PartitionGroups(n, cfg.nSplits);
    var trainGroups := TrainGroups(cfg, combo, cfg.nSplits);
    TrainGroupsExact(cfg, combo, cfg.nSplits);
    UsableFacts(cfg, n, t, combo, trainGroups);
    var test, cand := Members(blocks, combo), Members(blocks, trainGroups);
    MembersFacts(cfg, n, t, combo);
    MembersFacts(cfg, n, t, trainGroups);
    var purged, rest := Purge(t, blocks, combo, cand);
    var embargoed, train := Embargo(t, blocks, combo, embargo, rest);
    s := PurgedSplit(idx, train, test, purged, embargoed, combo, trainGroups);
  }

  lemma UsableFacts(cfg: Config, n: nat, t: Times, combo: seq<nat>, groups: seq<nat>)
    requires cfg.Valid() && |t.starts| == n && Usable(t, Blocks(n, cfg.nSplits), combo)
    requires Increasing(groups) && forall g :: g in groups ==> g < cfg.nSplits
    ensures forall i :: 0 <= i < |groups| ==> groups[i] < cfg.nSplits
    ensures forall i :: 0 <= i < |combo| ==> combo[i] < cfg.nSplits
    ensures forall g :: 0 <= g < cfg.nSplits ==> Blocks(n, cfg.nSplits)[g].hi <= n
  {
    forall i | 0 <= i < |groups| ensures groups[i] < cfg.nSplits {
      assert groups[i] in groups;
    }
  }

  lemma {:induction false} MembersFacts(cfg: Config, n: nat, t: Times, groups: seq<nat>)
    requires cfg.Valid() && Increasing(groups)
    requires forall i :: 0 <= i < |groups| ==> groups[i] < cfg.nSplits
    requires forall g :: 0 <= g < cfg.nSplits ==> Blocks(n, cfg.nSplits)[g].hi <= n
    ensures var m := Members(Blocks(n, cfg.nSplits), groups);
      && Increasing(m)
      && (forall x: nat :: x in m <==> InGroups(Blocks(n, cfg.nSplits), groups, x))
      && (forall i :: 0 <= i < |m| ==> m[i] < n)
  {
    var b := Blocks(n, cfg.nSplits);
    var m := Members(b, groups);
    MembersExact(b, groups);
    MembersIncreasing(n, cfg.nSplits, groups);
    forall i | 0 <= i < |m| ensures m[i] < n {
      assert m[i] in m;
    }
  }

  // ---- the whole generator ----

  function EmbargoDuration(cfg: Config, n: nat, t: Times, integerTimes: bool): real
    requires 0 < n == |t.starts| == |t.ends|
  {
    if cfg.embargoBars.Some? then cfg.embargoBars.value as real
    else if integerTimes && t.starts[n - 1] != (n - 1) as real then (t.ends[n - 1] - t.starts[0]) * cfg.embargoPct
    else AtLeastOne(RoundHalfEven(SampleShare(cfg, n))) as real
  }

  function AtLeastOne(x: int): int { if x < 1 then 1 else x }

  /** Missing times default to the sample positions; given ones are checked. */
  method CoerceTimes(n: nat, pred: Option<seq<real>>, eval: Option<seq<real>>)
    returns (t: Times, error: Option<Error>)
    ensures error.None? ==> t.Valid(n)
    ensures error.None? && pred.Some? ==> eval.Some? && t == Times(pred.value, eval.value)
    ensures error.None? && pred.None? ==> forall i :: 0 <= i < n ==> t.starts[i] == t.ends[i] == i as real
    ensures error == Some(MissingTimes) <==> pred.Some? != eval.Some?
    ensures error == Some(DimensionMismatch) <==>
      pred.Some? && eval.Some? && !(|pred.value| == |eval.value| == n)
    ensures error == Some(CausalityViolated) <==>
      pred.Some? && eval.Some? && |pred.value| == |eval.value| == n && !Times(pred.value, eval.value).Valid(n)
    ensures error.Some? ==> error.value in {MissingTimes, DimensionMismatch, CausalityViolated}
  {
    if pred.None? && eval.None? {
      var idx := seq(n, i requires 0 <= i < n => i as real);
      return Times(idx, idx), None;
    }
    if pred.None? || eval.None? {
      return Times([], []), Some(MissingTimes);
    }
    t := Times(pred.value, eval.value);
    if |t.starts| != n || |t.ends| != n {
      return t, Some(DimensionMismatch);
    }
    if exists i :: 0 <= i < n && t.starts[i] > t.ends[i] {
      return t, Some(CausalityViolated);
    }
    error := None;
  }

  /** How far the embargo reaches, in the three ways it can be configured: as a number of bars,
      as a share of the time from the first start to the last end, or as the rounded share of
      the samples, one bar at least. */
  ghost predicate EmbargoReaches(cfg: Config, n: nat, t: Times, integerTimes: bool, reach: real)
    requires 0 < n == |t.starts| == |t.ends|
  {
    if cfg.embargoBars.Some? then reach == cfg.embargoBars.value as real
    else if integerTimes && t.starts[n - 1] != n as real - 1.0 then
      reach == (t.ends[n - 1] - t.starts[0]) * cfg.embargoPct
    else
      exists bars: int :: RoundedShare(cfg, n, bars) && reach == if bars >= 1 then bars as real else 1.0
  }

  function SampleShare(cfg: Config, n: nat): real { n as real * cfg.embargoPct }

  ghost predicate RoundedShare(cfg: Config, n: nat, bars: int) { IsRounded(SampleShare(cfg, n), bars) }

  lemma EmbargoDurationReaches(cfg: Config, n: nat, t: Times, integerTimes: bool)
    requires 0 < n == |t.starts| == |t.ends|
    ensures EmbargoReaches(cfg, n, t, integerTimes, EmbargoDuration(cfg, n, t, integerTimes))
  {
    hide RoundHalfEven, IsRounded;
    var bars := RoundHalfEven(SampleShare(cfg, n));
    RoundHalfEvenIff(SampleShare(cfg, n), bars);
    assert RoundedShare(cfg, n, bars);
  }

  ghost predicate AllFolds(cfg: Config, n: nat, t: Times, embargo: real, combos: seq<seq<nat>>, folds: seq<PurgedSplit>)
    requires cfg.nSplits > 0
  {
    |folds| <= |combos| && forall f :: 0 <= f < |folds| ==>
      && folds[f].splitIdx == f && FoldOf(cfg, n, t, embargo, combos[f], folds[f])
      && |folds[f].train| as real >= cfg.minTrainRatio * n as real
  }

  predicate StarvedBy(cfg: Config, n: nat, s: PurgedSplit) { |s.train| as real < cfg.minTrainRatio * n as real }

  /** The loop over the combinations, ending early at the first fold that starves. */
  method FoldLoop(cfg: Config, n: nat, t: Times, embargo: real, combos: seq<seq<nat>>)
    returns (folds: seq<PurgedSplit>, starved: bool)
    requires cfg.Valid() && n >= cfg.nSplits && t.Valid(n)
    requires forall f :: 0 <= f < |combos| ==> Eligible(cfg, combos[f])
    ensures AllFolds(cfg, n, t, embargo, combos, folds)
    ensures !starved ==> |folds| == |combos|
    ensures starved ==>
      && |folds| < |combos|
      && exists s :: FoldOf(cfg, n, t, embargo, combos[|folds|], s) && StarvedBy(cfg, n, s)
  {
    hide FoldOf, Blocks, Eligible, Selection, Usable, Increasing;
    folds, starved := [], false;
    for f := 0 to |combos|
      invariant |folds| == f && AllFolds(cfg, n, t, embargo, combos, folds)
    {
      FoldUsable(cfg, n, t, combos[f]);
      if |TrainGroups(cfg, combos[f], cfg.nSplits)| == 0 {
        assert false; // the source raises here; no generated combination gets this far
      }
      var s := SplitFold(cfg, n, t, embargo, combos[f], f);
      if StarvedBy(cfg, n, s) {
        starved := true;
        return;
      }
      folds := folds + [s];
    }
  }

  /** All folds in order, up to the first one that starves. */
  method Split(cfg: Config, n: nat, pred: Option<seq<real>>, eval: Option<seq<real>>, integerTimes: bool)
    returns (folds: seq<PurgedSplit>, error: Option<Error>, ghost t: Times, ghost embargo: real,
             ghost combos: seq<seq<nat>>)
    requires cfg.Valid()
    ensures error == Some(TooFewSamples) <==> n < cfg.nSplits
    ensures error == Some(MissingTimes) <==> n >= cfg.nSplits && pred.Some? != eval.Some?
    ensures error == Some(DimensionMismatch) <==>
      n >= cfg.nSplits && pred.Some? && eval.Some? && !(|pred.value| == |eval.value| == n)
    ensures error == Some(CausalityViolated) <==>
      && n >= cfg.nSplits && pred.Some? && eval.Some? && |pred.value| == |eval.value| == n
      && !Times(pred.value, eval.value).Valid(n)
    ensures n >= cfg.nSplits && (error.None? || error.value.Starved?) ==>
      && t.Valid(n) && n > 0
      && (if pred.Some? then eval.Some? && t == Times(pred.value, eval.value)
          else forall i :: 0 <= i < n ==> t.starts[i] == t.ends[i] == i as real)
      && EmbargoReaches(cfg, n, t, integerTimes, embargo)
      && Chosen(cfg, combos) && AllFolds(cfg, n, t, embargo, combos, folds)
    ensures error.None? ==> |folds| == |combos|
    ensures error.Some? && error.value.Starved? ==>
      && error.value.fold == |folds| < |combos|
      && exists s ::
           FoldOf(cfg, n, t, embargo, combos[|folds|], s) && |s.train| as real < cfg.minTrainRatio * n as real
  {
    hide FoldOf, Chosen, AllFolds, EmbargoDuration, EmbargoReaches, Eligible;
    folds, error, t, embargo, combos := [], None, Times([], []), 0.0, [];
    if n < cfg.nSplits {
      error := Some(TooFewSamples);
      return;
    }
    var times;
    times, error := CoerceTimes(n, pred, eval);
    t := times;
    if error.Some? {
      return;
    }
    var duration := EmbargoDuration(cfg, n, times, integerTimes);
    EmbargoDurationReaches(cfg, n, times, integerTimes);
    var selected := GenerateTestCombinations(cfg);
    embargo, combos := duration, selected;
    ChosenEligible(cfg, selected);
    var starved;
    folds, starved := FoldLoop(cfg, n, times, duration, selected);
    if starved {
      error := Some(Starved(|folds|));
    }
  }

  /** k increasing groups, consecutive and not starting at the first in forward mode. */
  ghost predicate Eligible(cfg: Config, combo: seq<nat>) {
    Selection(combo, 0, cfg.nSplits, cfg.nTestSplits) && (cfg.forwardChaining ==> IsWindow(combo, cfg.nTestSplits))
  }

  lemma ChosenEligible(cfg: Config, combos: seq<seq<nat>>)
    requires cfg.Valid() && Chosen(cfg, combos)
    ensures forall f :: 0 <= f < |combos| ==> Eligible(cfg, combos[f])
  {
    ChosenSelections(cfg, combos);
  }

  /** Every generated combination leaves something to train on. */
  lemma {:induction false} FoldUsable(cfg: Config, n: nat, t: Times, combo: seq<nat>)
    requires cfg.Valid() && n >= cfg.nSplits && t.Valid(n)
    requires Eligible(cfg, combo)
    ensures Usable(t, Blocks(n, cfg.nSplits), combo) && Increasing(combo)
    ensures TrainGroups(cfg, combo, cfg.nSplits) != []
  {
    var b := Blocks(n, cfg.nSplits);
    CutEnds(n, cfg.nSplits);
    forall g | 0 <= g < cfg.nSplits ensures b[g].lo < b[g].hi <= n {
      CutMonotone(n, cfg.nSplits, g, g + 1);
      CutMonotone(n, cfg.nSplits, g + 1, cfg.nSplits);
    }
    TrainGroupsExact(cfg, combo, cfg.nSplits);
    var free := SomeTrainable(cfg, combo);
    assert free in TrainGroups(cfg, combo, cfg.nSplits);
  }

  lemma SomeTrainable(cfg: Config, combo: seq<nat>) returns (g: nat)
    requires cfg.Valid() && Selection(combo, 0, cfg.nSplits, cfg.nTestSplits)
    requires cfg.forwardChaining ==> IsWindow(combo, cfg.nTestSplits)
    ensures g < cfg.nSplits && Trainable(cfg, combo, g)
  {
    if cfg.forwardChaining {
      g := 0;
    } else {
      g := FirstGap(combo, 0, cfg.nSplits);
    }
  }

  /** Fewer than n - lo increasing numbers cannot fill lo .. n-1. */
  lemma {:induction false} FirstGap(combo: seq<nat>, lo: nat, n: nat) returns (g: nat)
    requires lo < n && Increasing(combo) && |combo| < n - lo
    requires forall i :: 0 <= i < |combo| ==> lo <= combo[i]
    ensures lo <= g < n && g !in combo
    decreases |combo|
  {
    if combo == [] || combo[0] != lo {
      g := lo;
    } else {
      g := FirstGap(combo[1..], lo + 1, n);
      assert combo == [combo[0]] + combo[1..];
    }
  }

  // ---- what every fold guarantees ----

  /** Retained training samples against whole test blocks: over strictly before the block's
      interval starts, or starting strictly after its end plus the embargo. */
  lemma TrainClearOfBlocks(cfg: Config, n: nat, t: Times, embargo: real, combo: seq<nat>, s: PurgedSplit, x: nat,
                           m: nat)
    requires cfg.Valid() && t.Valid(n) && Usable(t, Blocks(n, cfg.nSplits), combo)
    requires FoldOf(cfg, n, t, embargo, combo, s) && x in s.train && m < |combo|
    ensures x < n
    ensures var b := Blocks(n, cfg.nSplits)[combo[m]];
      t.ends[x] < BlockStart(t, b) || t.starts[x] > BlockEnd(t, b) + embargo
  {
    var blocks := Blocks(n, cfg.nSplits);
    var b := blocks[combo[m]];
    assert InGroups(blocks, s.trainGroups, x);
    assert !Meets(t, b, x) && !Follows(t, b, embargo, x);
  }

  /** In combinatorial mode the four lists are disjoint and hold every sample. */
  lemma FoldComplete(cfg: Config, n: nat, t: Times, embargo: real, combo: seq<nat>, s: PurgedSplit, x: nat)
    requires cfg.Valid() && t.Valid(n) && Selection(combo, 0, cfg.nSplits, cfg.nTestSplits)
    requires FoldOf(cfg, n, t, embargo, combo, s)
    ensures !(x in s.train && x in s.purged)
    ensures !(x in s.train && x in s.embargoed)
    ensures !(x in s.purged && x in s.embargoed)
    ensures x in s.test ==> x !in s.train && x !in s.purged && x !in s.embargoed
    ensures x in s.test || x in s.train || x in s.purged || x in s.embargoed ==> x < n
    ensures !cfg.forwardChaining && x < n ==> x in s.test || x in s.train || x in s.purged || x in s.embargoed
  {
    hide Purged, Embargoed;
    var blocks := Blocks(n, cfg.nSplits);
    TrainGroupsExact(cfg, combo, cfg.nSplits);
    if x in s.test || InGroups(blocks, s.trainGroups, x) {
      GroupsWithin(n, cfg.nSplits, combo, s.trainGroups, x);
    }
    if x < n {
      var g := PartitionExact(n, cfg.nSplits, x);
      OwnGroup(n, cfg.nSplits, combo, x, g);
      OwnGroup(n, cfg.nSplits, s.trainGroups, x, g);
    }
  }

  lemma OwnGroup(n: nat, splits: nat, groups: seq<nat>, x: nat, g: nat)
    requires splits > 0 && g < splits && InBlock(x, Blocks(n, splits)[g])
    requires forall h :: 0 <= h < splits && Blocks(n, splits)[h].lo <= x < Blocks(n, splits)[h].hi ==> h == g
    ensures InGroups(Blocks(n, splits), groups, x) <==> g in groups
  {
    if g in groups {
      var i :| 0 <= i < |groups| && groups[i] == g;
      assert InBlock(x, Blocks(n, splits)[groups[i]]);
    }
  }

  lemma GroupsWithin(n: nat, splits: nat, a: seq<nat>, b: seq<nat>, x: nat)
    requires splits > 0
    requires InGroups(Blocks(n, splits), a, x) || InGroups(Blocks(n, splits), b, x)
    ensures x < n
  {
    CutEnds(n, splits);
    forall g | 0 <= g < splits ensures Blocks(n, splits)[g].hi <= n {
      CutMonotone(n, splits, g + 1, splits);
    }
  }

  /** Forward chaining trains only on samples before every test sample. */
  lemma ForwardTrainsOnThePast(cfg: Config, n: nat, t: Times, embargo: real, combo: seq<nat>, s: PurgedSplit, x: nat,
                               z: nat)
    requires cfg.Valid() && cfg.forwardChaining && Selection(combo, 0, cfg.nSplits, cfg.nTestSplits)
    requires FoldOf(cfg, n, t, embargo, combo, s)
    requires (x in s.train || x in s.purged || x in s.embargoed) && z in s.test
    ensures x < z
  {
    var blocks := Blocks(n, cfg.nSplits);
    TrainGroupsExact(cfg, combo, cfg.nSplits);
    assert InGroups(blocks, s.trainGroups, x) && InGroups(blocks, combo, z);
    var i :| 0 <= i < |s.trainGroups| && s.trainGroups[i] < |blocks| && InBlock(x, blocks[s.trainGroups[i]]);
    var j :| 0 <= j < |combo| && combo[j] < |blocks| && InBlock(z, blocks[combo[j]]);
    assert s.trainGroups[i] in s.trainGroups;
    assert combo[0] <= combo[j];
    CutMonotone(n, cfg.nSplits, s.trainGroups[i] + 1, combo[j]);
  }

  // ---- individual test samples ----

  /** The interval of block b, with its embargo, covers the lifespan of every sample in it. */
  ghost predicate Enveloped(t: Times, b: Block, embargo: real)
    requires b.lo < b.hi <= |t.starts| == |t.ends|
  {
    forall z: nat :: InBlock(z, b) ==> BlockStart(t, b) <= t.starts[z] && t.ends[z] <= BlockEnd(t, b) + embargo
  }

  /** What survives purging and embargo against one block, for any lifespan [s, e]. */
  ghost predicate Survives(t: Times, b: Block, embargo: real, s: real, e: real)
    requires b.lo < b.hi <= |t.starts| == |t.ends|
  {
    s <= e && !Overlaps(s, e, BlockStart(t, b), BlockEnd(t, b)) && !InEmbargo(s, BlockEnd(t, b), embargo)
  }

  /** Purging by the block's first start and last end is leak-free for the individual samples
      of the block exactly when the block is enveloped. */
  lemma LeakFreeIffEnveloped(t: Times, b: Block, embargo: real)
    requires b.lo < b.hi <= |t.starts| == |t.ends| && t.Valid(|t.starts|) && embargo >= 0.0
    ensures Enveloped(t, b, embargo) <==>
      forall s: real, e: real, z: nat :: Survives(t, b, embargo, s, e) && InBlock(z, b)
        ==> !Overlaps(s, e, t.starts[z], t.ends[z])
  {
    if !Enveloped(t, b, embargo) {
      var z: nat :| InBlock(z, b) && !(BlockStart(t, b) <= t.starts[z] && t.ends[z] <= BlockEnd(t, b) + embargo);
      var early := t.starts[z] < BlockStart(t, b);
      var e := if early then t.starts[z] else t.ends[z];
      var s := if early && BlockEnd(t, b) < e then BlockEnd(t, b) else e;
      assert Overlaps(s, e, t.starts[z], t.ends[z]);
      assert Survives(t, b, embargo, s, e);
    }
  }

  ghost predicate Sorted(x: seq<real>) { forall i, j :: 0 <= i <= j < |x| ==> x[i] <= x[j] }

  lemma SortedEnveloped(t: Times, b: Block, embargo: real)
    requires b.lo < b.hi <= |t.starts| == |t.ends| && Sorted(t.starts) && Sorted(t.ends) && embargo >= 0.0
    ensures Enveloped(t, b, embargo)
  {
  }

  /** With enveloped test blocks (sorted starts and ends suffice) no retained training sample
      overlaps any test sample. */
  lemma NoSampleOverlap(cfg: Config, n: nat, t: Times, embargo: real, combo: seq<nat>, s: PurgedSplit, x: nat, z: nat)
    requires cfg.Valid() && t.Valid(n) && Usable(t, Blocks(n, cfg.nSplits), combo) && embargo >= 0.0
    requires FoldOf(cfg, n, t, embargo, combo, s) && x in s.train && z in s.test
    requires forall m :: 0 <= m < |combo| ==> Enveloped(t, Blocks(n, cfg.nSplits)[combo[m]], embargo)
    ensures x < n && z < n && !Overlaps(t.starts[x], t.ends[x], t.starts[z], t.ends[z])
  {
    var blocks := Blocks(n, cfg.nSplits);
    assert InGroups(blocks, combo, z);
    var m :| 0 <= m < |combo| && combo[m] < |blocks| && InBlock(z, blocks[combo[m]]);
    TrainClearOfBlocks(cfg, n, t, embargo, combo, s, x, m);
    assert Enveloped(t, blocks[combo[m]], embargo);
  }

  /** Over the folds of a split: how long after the end of a tested block training may resume,
      for each way the embargo is configured. */
  lemma TrainingWaits(cfg: Config, n: nat, t: Times, integerTimes: bool, embargo: real, combos: seq<seq<nat>>,
                      folds: seq<PurgedSplit>, f: nat, x: nat, m: nat)
    requires cfg.Valid() && n >= cfg.nSplits && t.Valid(n) && Chosen(cfg, combos)
    requires EmbargoReaches(cfg, n, t, integerTimes, embargo) && AllFolds(cfg, n, t, embargo, combos, folds)
    requires f < |folds| && x in folds[f].train && m < |combos[f]|
    ensures x < n && combos[f][m] < cfg.nSplits
    ensures var b := Blocks(n, cfg.nSplits)[combos[f][m]];
      0 < b.hi <= n
      && var gap := t.starts[x] - t.ends[b.hi - 1];
         gap > 0.0 ==>
           && (cfg.embargoBars.Some? ==> gap > cfg.embargoBars.value as real)
           && (cfg.embargoBars.None? && integerTimes && t.starts[n - 1] != n as real - 1.0 ==>
                 gap > (t.ends[n - 1] - t.starts[0]) * cfg.embargoPct)
           && (cfg.embargoBars.None? && !(integerTimes && t.starts[n - 1] != n as real - 1.0) ==>
                 gap > 1.0 && gap > n as real * cfg.embargoPct - 0.5)
  {
    hide FoldOf, Chosen, Blocks, Eligible;
    ChosenEligible(cfg, combos);
    FoldUsable(cfg, n, t, combos[f]);
    NotInEmbargo(cfg, n, t, embargo, combos[f], folds[f], x, m);
    ReachBounds(cfg, n, t, integerTimes, embargo);
  }

  lemma NotInEmbargo(cfg: Config, n: nat, t: Times, embargo: real, combo: seq<nat>, s: PurgedSplit, x: nat, m: nat)
    requires cfg.Valid() && t.Valid(n) && Usable(t, Blocks(n, cfg.nSplits), combo)
    requires FoldOf(cfg, n, t, embargo, combo, s) && x in s.train && m < |combo|
    ensures x < n && combo[m] < cfg.nSplits
    ensures var b := Blocks(n, cfg.nSplits)[combo[m]];
      0 < b.hi <= n && (t.starts[x] <= t.ends[b.hi - 1] || t.starts[x] > t.ends[b.hi - 1] + embargo)
  {
    var blocks := Blocks(n, cfg.nSplits);
    assert InGroups(blocks, s.trainGroups, x);
    assert !Follows(t, blocks[combo[m]], embargo, x);
  }

  /** The embargo of each mode in plain numbers. */
  lemma ReachBounds(cfg: Config, n: nat, t: Times, integerTimes: bool, reach: real)
    requires 0 < n == |t.starts| == |t.ends| && EmbargoReaches(cfg, n, t, integerTimes, reach)
    ensures cfg.embargoBars.Some? ==> reach == cfg.embargoBars.value as real
    ensures cfg.embargoBars.None? && integerTimes && t.starts[n - 1] != n as real - 1.0 ==>
      reach == (t.ends[n - 1] - t.starts[0]) * cfg.embargoPct
    ensures cfg.embargoBars.None? && !(integerTimes && t.starts[n - 1] != n as real - 1.0) ==>
      reach >= 1.0 && reach >= n as real * cfg.embargoPct - 0.5
      && (reach == 1.0 || reach <= n as real * cfg.embargoPct + 0.5)
  {
  }

  /** And no sample waits longer than that: a candidate that is neither purged nor starts
      within the embargo after some tested block is trained on. */
  lemma WaitingIsNeeded(cfg: Config, n: nat, t: Times, embargo: real, combo: seq<nat>, s: PurgedSplit, x: nat)
    requires cfg.Valid() && t.Valid(n) && Usable(t, Blocks(n, cfg.nSplits), combo)
    requires FoldOf(cfg, n, t, embargo, combo, s) && x < n
    requires x in s.purged || x in s.embargoed
    ensures exists m :: 0 <= m < |combo| && combo[m] < cfg.nSplits
                        && Excuses(t, Blocks(n, cfg.nSplits)[combo[m]], embargo, x, x in s.purged)
  {
    var blocks := Blocks(n, cfg.nSplits);
    if x in s.purged {
      var m :| 0 <= m < |combo| && combo[m] < |blocks| && Meets(t, blocks[combo[m]], x);
    } else {
      var m :| 0 <= m < |combo| && combo[m] < |blocks| && Follows(t, blocks[combo[m]], embargo, x);
    }
  }

  /** Why sample x may be dropped on account of block b: it overlaps the block's interval, or
      it starts within the embargo after it. */
  ghost predicate Excuses(t: Times, b: Block, embargo: real, x: nat, purged: bool) {
    && b.lo < b.hi <= |t.starts| == |t.ends| && x < |t.starts|
    && (if purged then t.starts[x] <= t.ends[b.hi - 1] && t.starts[b.lo] <= t.ends[x]
        else t.ends[b.hi - 1] < t.starts[x] <= t.ends[b.hi - 1] + embargo)
  }

  /** Two lifespans overlap exactly when some instant lies in both. */
  lemma OverlapIffCommonInstant(s: real, e: real, ts: real, te: real)
    requires s <= e && ts <= te
    ensures Overlaps(s, e, ts, te) <==> exists i: real :: InSpan(i, s, e) && InSpan(i, ts, te)
  {
    if Overlaps(s, e, ts, te) {
      var i := if s < ts then ts else s;
      assert InSpan(i, s, e) && InSpan(i, ts, te);
    }
  }

  predicate InSpan(i: real, s: real, e: real) { s <= i <= e }

  /** Forward chaining leaves out none of the past: every sample before the first test group
      is trained on, purged or embargoed. */
  lemma ForwardTrainsOnAllThePast(cfg: Config, n: nat, t: Times, embargo: real, combo: seq<nat>, s: PurgedSplit, x: nat)
    requires cfg.Valid() && cfg.forwardChaining && Selection(combo, 0, cfg.nSplits, cfg.nTestSplits)
    requires FoldOf(cfg, n, t, embargo, combo, s) && x < Blocks(n, cfg.nSplits)[combo[0]].lo
    ensures x in s.train || x in s.purged || x in s.embargoed
  {
    hide Purged, Embargoed;
    var blocks := Blocks(n, cfg.nSplits);
    CutEnds(n, cfg.nSplits);
    CutMonotone(n, cfg.nSplits, combo[0], cfg.nSplits);
    var g := PartitionExact(n, cfg.nSplits, x);
    if combo[0] <= g {
      CutMonotone(n, cfg.nSplits, combo[0], g);
      assert false;
    }
    TrainGroupsExact(cfg, combo, cfg.nSplits);
    InSomeGroup(blocks, s.trainGroups, g, x);
  }

  /** With the default index times and no embargo in bars configured, the sample right
      after a test block is never trained on: the embargo is at least one bar. */
  lemma DefaultTimesKeepDistance(cfg: Config, n: nat, t: Times, integerTimes: bool, embargo: real, combo: seq<nat>,
                                 s: PurgedSplit, x: nat, m: nat)
    requires cfg.Valid() && t.Valid(n) && n > 0 && Usable(t, Blocks(n, cfg.nSplits), combo)
    requires forall i :: 0 <= i < n ==> t.starts[i] == t.ends[i] == i as real
    requires cfg.embargoBars.None?
    requires EmbargoReaches(cfg, n, t, integerTimes, embargo)
    requires FoldOf(cfg, n, t, embargo, combo, s) && x in s.train && m < |combo|
    ensures var b := Blocks(n, cfg.nSplits)[combo[m]]; x < b.lo || x > b.hi
  {
    hide FoldOf;
    TrainClearOfBlocks(cfg, n, t, embargo, combo, s, x, m);
  }

  /** Valid times whose fourth sample starts before the third. */
  const UNSORTED := Times([0.0, 1.0, 9.0, 1.0], [0.5, 2.0, 9.5, 10.0])

  /** Without sorting it fails: two blocks of two samples, the second sample of the test block
      starting before the first; the fold trains on a sample that overlaps it. */
  lemma UnsortedTimesLeak(cfg: Config, s: PurgedSplit)
    requires cfg.Valid() && cfg.nSplits == 2 && !cfg.forwardChaining
    requires FoldOf(cfg, 4, UNSORTED, 0.0, [1], s)
    ensures UNSORTED.Valid(4) && 1 in s.train && 3 in s.test
    ensures Overlaps(UNSORTED.starts[1], UNSORTED.ends[1], UNSORTED.starts[3], UNSORTED.ends[3])
  {
    hide Blocks, TrainGroups, Purged, Embargoed, InGroups, Increasing;
    TwoBlocksOfTwo();
    TrainGroupsExact(cfg, [1], 2);
    InSomeGroup(Blocks(4, 2), s.trainGroups, 0, 1);
    InSomeGroup(Blocks(4, 2), [1], 1, 3);
    OneBlock(UNSORTED, Blocks(4, 2), 1, 0.0, 1);
  }

  /** Against a single test block, purging and embargo look at that block alone. */
  lemma OneBlock(t: Times, blocks: seq<Block>, g: nat, embargo: real, x: nat)
    requires g < |blocks|
    ensures Purged(t, blocks, [g], x) <==> Meets(t, blocks[g], x)
    ensures Embargoed(t, blocks, [g], embargo, x) <==> Follows(t, blocks[g], embargo, x)
  {
    hide Meets, Follows;
    assert [g][0] == g;
  }

  lemma TwoBlocksOfTwo()
    ensures Blocks(4, 2) == [Block(0, 2), Block(2, 4)]
  {
  }

  lemma InSomeGroup(blocks: seq<Block>, groups: seq<nat>, g: nat, x: nat)
    requires g in groups && g < |blocks| && InBlock(x, blocks[g])
    ensures InGroups(blocks, groups, x)
  {
    var i :| 0 <= i < |groups| && groups[i] == g;
  }

  /** Splitting those four samples returns such a fold. */
  method LeakingSplit() returns (folds: seq<PurgedSplit>)
    ensures exists f :: 0 <= f < |folds| && 1 in folds[f].train && 3 in folds[f].test
  {
    hide FoldOf, Chosen, Blocks;
    var cfg := Config(2, 1, 0.0, Some(0), None, 0.1, false);
    var error;
    ghost var t, embargo, combos;
    folds, error, t, embargo, combos := Split(cfg, 4, Some(UNSORTED.starts), Some(UNSORTED.ends), false);
    assert UNSORTED.Valid(4) && t == UNSORTED && embargo == 0.0;
    TwoFolds(cfg, combos);
    assert combos[0] == [0] && combos[1] == [1];
    forall s | FoldOf(cfg, 4, UNSORTED, 0.0, [0], s) ensures !StarvedBy(cfg, 4, s) {
      OtherFoldTrains(cfg, s);
      assert |s.train| >= 1;
    }
    forall s | FoldOf(cfg, 4, UNSORTED, 0.0, [1], s)
      ensures !StarvedBy(cfg, 4, s) && 1 in s.train && 3 in s.test
    {
      UnsortedTimesLeak(cfg, s);
      assert |s.train| >= 1;
    }
  }

  lemma TwoFolds(cfg: Config, combos: seq<seq<nat>>)
    requires cfg == Config(2, 1, 0.0, Some(0), None, 0.1, false) && Chosen(cfg, combos)
    ensures combos == [[0], [1]]
  {
    assert [0] + [] == [0] && [1] + [] == [1];
    assert Prepend(1, [[]]) == [[1]] && Prepend(0, [[]]) == [[0]];
    assert Combinations(2, 2, 0) == Combinations(1, 2, 0) == [[]];
    assert Combinations(1, 2, 1) == [[1]];
  }

  lemma OtherFoldTrains(cfg: Config, s: PurgedSplit)
    requires cfg.Valid() && cfg.nSplits == 2 && !cfg.forwardChaining
    requires FoldOf(cfg, 4, UNSORTED, 0.0, [0], s)
    ensures 2 in s.train
  {
    hide Blocks, TrainGroups, Purged, Embargoed, InGroups, Increasing;
    TwoBlocksOfTwo();
    TrainGroupsExact(cfg, [0], 2);
    InSomeGroup(Blocks(4, 2), s.trainGroups, 1, 2);
    OneBlock(UNSORTED, Blocks(4, 2), 0, 0.0, 2);
  }
}
