/** GenerationalLifecycleEngine: elitist survivor selection from a ranked pool of parents
    and offspring, the cached survivor ranking, the mutation step size and the stagnation
    counter.  The ranker is known only by its contract. */
module Lifecycle {
  import opened Results
  import opened Sorting
  import opened Vectors

  type Id = string

  datatype Front = Front(rank: nat, ids: seq<Id>, scores: seq<real>)

  datatype Ranking = Ranking(fronts: seq<Front>, infeasible: seq<Id>)

  /** The candidates of the fronts, best front first. */
  function Flatten(fronts: seq<Front>): seq<Id> {
    if fronts == [] then [] else Flatten(fronts[..|fronts| - 1]) + fronts[|fronts| - 1].ids
  }

  /** Every candidate of a ranking in the order selection considers them. */
  function Order(r: Ranking): seq<Id> { Flatten(r.fronts) + r.infeasible }

  ghost predicate WellFormed(f: Front, rank: nat) {
    f.rank == rank && |f.ids| == |f.scores| && f.ids != [] && Ascending(f.scores)
  }

  /** The ranker's contract: numbered non-empty fronts sorted by score, which together
      with the infeasible candidates list the pool exactly. */
  ghost predicate Ranks(r: Ranking, pool: seq<Id>) {
    && (forall i :: 0 <= i < |r.fronts| ==> WellFormed(r.fronts[i], i + 1))
    && multiset(Order(r)) == multiset(pool)
  }

  /** None of the entries after the first n repeats one of them. */
  ghost predicate Separated(x: seq<Id>, n: nat)
    requires n <= |x|
  {
    forall p :: n <= p < |x| ==> x[p] !in x[..n]
  }

  ghost predicate Distinct(x: seq<Id>) { forall i, j :: 0 <= i < j < |x| ==> x[i] != x[j] }

  // ---- selection ----

  /** The nested loops that fill the next generation: fronts in order, then infeasible
      candidates, stopping at n. */
  method Select(r: Ranking, n: nat) returns (surviving: seq<Id>)
    requires n >= 1
    ensures surviving == if |Order(r)| <= n then Order(r) else Order(r)[..n]
  {
    hide Order;
    surviving := [];
    var i := 0;
    while i < |r.fronts| && |surviving| < n
      invariant 0 <= i <= |r.fronts| && |surviving| <= n
      invariant |surviving| < n ==> surviving == Flatten(r.fronts[..i])
      invariant surviving <= Flatten(r.fronts[..i])
    {
      var ids := r.fronts[i].ids;
      ghost var before := surviving;
      var j := 0;
      while j < |ids| && |surviving| < n
        invariant 0 <= j <= |ids| && |surviving| <= n
        invariant surviving == before + ids[..j]
      {
        surviving := surviving + [ids[j]];
        j := j + 1;
      }
      assert r.fronts[..i + 1][..i] == r.fronts[..i];
      assert before + ids[..j] <= Flatten(r.fronts[..i + 1]);
      if j == |ids| {
        assert ids[..j] == ids;
      }
      i := i + 1;
    }
    FlattenPrefix(r.fronts, i);
    if |surviving| < n {
      assert r.fronts[..i] == r.fronts;
      var j := 0;
      while j < |r.infeasible| && |surviving| < n
        invariant 0 <= j <= |r.infeasible| && |surviving| <= n
        invariant surviving == Flatten(r.fronts) + r.infeasible[..j]
      {
        surviving := surviving + [r.infeasible[j]];
        j := j + 1;
      }
    }
    assert surviving <= Order(r) && (|surviving| == n || surviving == Order(r)) by {
      OrderIs(r);
    }
  }

  lemma OrderIs(r: Ranking)
    ensures Order(r) == Flatten(r.fronts) + r.infeasible
  {
  }

  lemma {:induction false} FlattenPrefix(fronts: seq<Front>, i: nat)
    requires i <= |fronts|
    ensures Flatten(fronts[..i]) <= Flatten(fronts)
    decreases |fronts| - i
  {
    if i == |fronts| {
      assert fronts[..i] == fronts;
    } else {
      FlattenPrefix(fronts, i + 1);
      assert fronts[..i + 1][..i] == fronts[..i];
    }
  }

  /** Where a front begins in the order. */
  function Start(r: Ranking, i: nat): nat
    requires i <= |r.fronts|
  {
    |Flatten(r.fronts[..i])|
  }

  lemma FrontSegment(r: Ranking, i: nat)
    requires i < |r.fronts|
    ensures Start(r, i) + |r.fronts[i].ids| == Start(r, i + 1) <= |Flatten(r.fronts)| <= |Order(r)|
    ensures Order(r)[Start(r, i)..Start(r, i + 1)] == r.fronts[i].ids
  {
    FlattenPrefix(r.fronts, i + 1);
    assert r.fronts[..i + 1][..i] == r.fronts[..i];
    assert Flatten(r.fronts[..i + 1]) == Flatten(r.fronts[..i]) + r.fronts[i].ids;
  }

  lemma {:induction false} StartMonotone(r: Ranking, i: nat, j: nat)
    requires i <= j <= |r.fronts|
    ensures Start(r, i) <= Start(r, j)
    decreases j
  {
    if i < j {
      StartMonotone(r, i, j - 1);
      FrontSegment(r, j - 1);
    }
  }

  /** Position p of the order is place k of front i. */
  ghost predicate At(r: Ranking, p: nat, i: nat, k: nat) {
    i < |r.fronts| && k < |r.fronts[i].ids| && p == Start(r, i) + k
  }

  lemma AtInOrder(r: Ranking, p: nat, i: nat, k: nat)
    requires At(r, p, i, k)
    ensures p < |Flatten(r.fronts)| <= |Order(r)| && Order(r)[p] == r.fronts[i].ids[k]
  {
    FrontSegment(r, i);
    assert Order(r)[p] == Order(r)[Start(r, i)..Start(r, i + 1)][k];
  }

  /** No survivor is worse than a discarded candidate: it is in an earlier front, or in
      the same front with a score no larger. */
  lemma Elitist(r: Ranking, pool: seq<Id>, p: nat, i: nat, k: nat, q: nat, j: nat, l: nat)
    requires Ranks(r, pool)
    requires At(r, p, i, k) && At(r, q, j, l) && p <= q
    ensures i <= j
    ensures i == j ==> r.fronts[i].scores[k] <= r.fronts[j].scores[l]
  {
    hide Order, Flatten;
    assert WellFormed(r.fronts[i], i + 1) && WellFormed(r.fronts[j], j + 1);
    if i > j {
      FrontSegment(r, j);
      StartMonotone(r, j + 1, i);
      assert false;
    }
  }

  /** Infeasible candidates survive only when every feasible one does. */
  lemma InfeasibleLast(r: Ranking, n: nat, p: nat)
    requires n <= |Order(r)| && p < n && p >= |Flatten(r.fronts)|
    ensures forall i: nat, k: nat, q: nat :: At(r, q, i, k) ==> q < n
    ensures Order(r)[p] == r.infeasible[p - |Flatten(r.fronts)|]
  {
    forall i: nat, k: nat, q: nat | At(r, q, i, k) ensures q < n {
      AtInOrder(r, q, i, k);
    }
  }

  /** The first front survives whole when it fits; otherwise only its best-scored
      members survive. */
  lemma FirstFrontSurvives(r: Ranking, n: nat)
    requires r.fronts != [] && n <= |Order(r)|
    ensures |r.fronts[0].ids| <= n ==> r.fronts[0].ids <= Order(r)[..n]
    ensures |r.fronts[0].ids| > n ==> Order(r)[..n] == r.fronts[0].ids[..n]
  {
    FrontSegment(r, 0);
    assert r.fronts[..0] == [];
  }

  /** From a pool of twice the population with distinct ids, exactly n distinct
      candidates of the pool survive. */
  lemma SurvivorsDistinct(r: Ranking, pool: seq<Id>, n: nat)
    requires Ranks(r, pool) && Distinct(pool) && n <= |pool|
    ensures |Order(r)| == |pool| && Distinct(Order(r)) && Distinct(Order(r)[..n])
    ensures forall id :: id in Order(r)[..n] ==> id in pool
  {
    hide Order;
    assert |multiset(Order(r))| == |multiset(pool)|;
    DistinctPermuted(pool, Order(r));
    forall id | id in Order(r)[..n] ensures id in pool {
      assert id in multiset(Order(r));
    }
  }

  lemma {:induction false} DistinctOnce(x: seq<Id>, v: Id)
    requires Distinct(x)
    ensures multiset(x)[v] <= 1
  {
    if x != [] {
      var n := |x| - 1;
      DistinctOnce(x[..n], v);
      assert x == x[..n] + [x[n]];
      assert v == x[n] ==> v !in x[..n];
    }
  }

  lemma DistinctPermuted(x: seq<Id>, y: seq<Id>)
    requires Distinct(x) && multiset(x) == multiset(y)
    ensures Distinct(y)
  {
    forall i, j | 0 <= i < j < |y| ensures y[i] != y[j] {
      DistinctOnce(x, y[i]);
      assert y == (y[..i] + [y[i]] + y[i + 1..j]) + ([y[j]] + y[j + 1..]);
    }
  }

  // ---- the cached ranking ----

  /** The candidates of a list that are in s, in the same order. */
  function Keep(x: seq<Id>, s: set<Id>): seq<Id> {
    if x == [] then []
    else Keep(x[..|x| - 1], s) + if x[|x| - 1] in s then [x[|x| - 1]] else []
  }

  function KeepScores(x: seq<Id>, scores: seq<real>, s: set<Id>): seq<real>
    requires |x| == |scores|
  {
    if x == [] then []
    else KeepScores(x[..|x| - 1], scores[..|x| - 1], s) + if x[|x| - 1] in s then [scores[|x| - 1]] else []
  }

  function KeptFront(f: Front, s: set<Id>): Front
    requires |f.ids| == |f.scores|
  {
    Front(f.rank, Keep(f.ids, s), KeepScores(f.ids, f.scores, s))
  }

  ghost predicate Paired(fronts: seq<Front>) { forall i :: 0 <= i < |fronts| ==> |fronts[i].ids| == |fronts[i].scores| }

  /** The fronts restricted to s, those left empty dropped. */
  function KeptFronts(fronts: seq<Front>, s: set<Id>): seq<Front>
    requires Paired(fronts)
  {
    if fronts == [] then []
    else
      var f := KeptFront(fronts[|fronts| - 1], s);
      KeptFronts(fronts[..|fronts| - 1], s) + if f.ids == [] then [] else [f]
  }

  function Restricted(r: Ranking, s: set<Id>): Ranking
    requires Paired(r.fronts)
  {
    Ranking(KeptFronts(r.fronts, s), Keep(r.infeasible, s))
  }

  function Members(x: seq<Id>): set<Id> { set id | id in x }

  /** The loops that build the survivor ranking. */
  method RestrictRanking(r: Ranking, surviving: seq<Id>) returns (kept: Ranking)
    requires Paired(r.fronts)
    ensures kept == Restricted(r, Members(surviving))
  {
    var s := Members(surviving);
    var fronts: seq<Front> := [];
    for i := 0 to |r.fronts|
      invariant fronts == KeptFronts(r.fronts[..i], s)
    {
      var f := r.fronts[i];
      var ids: seq<Id> := [];
      var scores: seq<real> := [];
      for j := 0 to |f.ids|
        invariant ids == Keep(f.ids[..j], s) && scores == KeepScores(f.ids[..j], f.scores[..j], s)
      {
        assert f.ids[..j + 1][..j] == f.ids[..j] && f.scores[..j + 1][..j] == f.scores[..j];
        if f.ids[j] in s {
          ids := ids + [f.ids[j]];
          scores := scores + [f.scores[j]];
        }
      }
      assert f.ids[..|f.ids|] == f.ids && f.scores[..|f.ids|] == f.scores;
      assert r.fronts[..i + 1][..i] == r.fronts[..i];
      if ids != [] {
        fronts := fronts + [Front(f.rank, ids, scores)];
      }
    }
    assert r.fronts[..|r.fronts|] == r.fronts;
    var infeasible: seq<Id> := [];
    for j := 0 to |r.infeasible|
      invariant infeasible == Keep(r.infeasible[..j], s)
    {
      assert r.infeasible[..j + 1][..j] == r.infeasible[..j];
      if r.infeasible[j] in s {
        infeasible := infeasible + [r.infeasible[j]];
      }
    }
    assert r.infeasible[..|r.infeasible|] == r.infeasible;
    kept := Ranking(fronts, infeasible);
  }

  lemma {:induction false} KeepConcat(a: seq<Id>, b: seq<Id>, s: set<Id>)
    ensures Keep(a + b, s) == Keep(a, s) + Keep(b, s)
  {
    if b == [] {
      assert a + b == a;
    } else {
      var n := |b| - 1;
      KeepConcat(a, b[..n], s);
      assert (a + b)[..|a + b| - 1] == a + b[..n];
    }
  }

  lemma {:induction false} KeepFlatten(fronts: seq<Front>, s: set<Id>)
    requires Paired(fronts)
    ensures Flatten(KeptFronts(fronts, s)) == Keep(Flatten(fronts), s)
  {
    if fronts != [] {
      var n := |fronts| - 1;
      KeepFlatten(fronts[..n], s);
      KeepConcat(Flatten(fronts[..n]), fronts[n].ids, s);
      var k := KeptFronts(fronts[..n], s);
      var f := KeptFront(fronts[n], s);
      assert (k + [f])[..|k + [f]| - 1] == k;
      assert k + [] == k;
    }
  }

  /** In a list whose members of s all come first, keeping s is cutting the list. */
  lemma {:induction false} KeepCut(x: seq<Id>, scores: seq<real>, s: set<Id>, m: nat)
    requires |x| == |scores| && m <= |x|
    requires forall p :: 0 <= p < |x| ==> (x[p] in s <==> p < m)
    ensures Keep(x, s) == x[..m] && KeepScores(x, scores, s) == scores[..m]
  {
    if x != [] {
      var n := |x| - 1;
      KeepCut(x[..n], scores[..n], s, if m <= n then m else n);
    }
  }

  function Within(n: nat, lo: nat, len: nat): (m: nat)
    ensures m <= len
  {
    if n <= lo then 0 else if n - lo <= len then n - lo else len
  }

  /** Each front of the cached ranking is the front it came from, cut where selection
      stopped. */
  lemma KeptFrontIsCut(r: Ranking, pool: seq<Id>, n: nat, i: nat)
    requires Ranks(r, pool) && n <= |Order(r)| && Separated(Order(r), n) && i < |r.fronts|
    ensures |r.fronts[i].ids| == |r.fronts[i].scores|
    ensures var m := Within(n, Start(r, i), |r.fronts[i].ids|);
      KeptFront(r.fronts[i], Members(Order(r)[..n]))
      == Front(i + 1, r.fronts[i].ids[..m], r.fronts[i].scores[..m])
  {
    hide Order, Start, Keep, KeepScores, Flatten;
    var f := r.fronts[i];
    assert WellFormed(f, i + 1);
    var s := Members(Order(r)[..n]);
    FrontSegment(r, i);
    forall k | 0 <= k < |f.ids| ensures f.ids[k] in s <==> k < Within(n, Start(r, i), |f.ids|) {
      var p := Start(r, i) + k;
      AtInOrder(r, p, i, k);
      SeparatedAt(Order(r), n, p);
    }
    KeepCut(f.ids, f.scores, s, Within(n, Start(r, i), |f.ids|));
  }

  lemma SeparatedAt(x: seq<Id>, n: nat, p: nat)
    requires n <= |x| && Separated(x, n) && p < |x|
    ensures x[p] in Members(x[..n]) <==> p < n
  {
    if p < n {
      assert x[..n][p] == x[p];
    }
  }

  /** How many fronts selection reaches into. */
  ghost function Reached(r: Ranking, n: nat, i: nat): nat
    requires i <= |r.fronts|
  {
    if i == 0 then 0 else if Start(r, i - 1) < n then i else Reached(r, n, i - 1)
  }

  lemma {:induction false} KeptFrontsWellFormed(r: Ranking, pool: seq<Id>, n: nat, i: nat)
    requires Ranks(r, pool) && n <= |Order(r)| && Separated(Order(r), n) && i <= |r.fronts|
    ensures Paired(r.fronts[..i])
    ensures var kept := KeptFronts(r.fronts[..i], Members(Order(r)[..n]));
      |kept| == Reached(r, n, i) && forall j :: 0 <= j < |kept| ==> WellFormed(kept[j], j + 1)
  {
    hide Order, Start, Keep, KeepScores, Flatten;
    forall j | 0 <= j < i ensures |r.fronts[..i][j].ids| == |r.fronts[..i][j].scores| {
      assert WellFormed(r.fronts[j], j + 1);
    }
    if i > 0 {
      KeptFrontsWellFormed(r, pool, n, i - 1);
      assert r.fronts[..i][..i - 1] == r.fronts[..i - 1];
      KeptFrontIsCut(r, pool, n, i - 1);
      assert WellFormed(r.fronts[i - 1], i);
      if Start(r, i - 1) < n {
        ReachedAll(r, n, i - 1);
      }
    }
  }

  lemma {:induction false} ReachedAll(r: Ranking, n: nat, i: nat)
    requires i <= |r.fronts| && Start(r, i) < n
    ensures Reached(r, n, i) == i
  {
    hide Start;
    if i > 0 {
      StartMonotone(r, i - 1, i);
    }
  }

  /** The cached ranking lists the survivors in the order they were selected, followed by
      what was discarded under a survivor's id.  It ranks the survivors, with their fronts,
      numbers and scores, exactly when nothing was. */
  lemma CachedRankingIff(r: Ranking, pool: seq<Id>, n: nat)
    requires Ranks(r, pool) && n <= |pool|
    ensures Paired(r.fronts) && |Order(r)| == |pool|
    ensures var s := Members(Order(r)[..n]);
      Order(Restricted(r, s)) == Order(r)[..n] + Keep(Order(r)[n..], s)
    ensures Ranks(Restricted(r, Members(Order(r)[..n])), Order(r)[..n]) <==> Separated(Order(r), n)
  {
    hide Order, Keep, KeepScores, Restricted;
    OrderCount(r, pool);
    var order := Order(r);
    var s := Members(order[..n]);
    RestrictedOrder(r, s);
    assert order == order[..n] + order[n..];
    KeepConcat(order[..n], order[n..], s);
    KeepAll(order[..n], s);
    KeepNone(order[n..], s);
    var kept := Restricted(r, s);
    if Separated(order, n) {
      RestrictedWellFormed(r, pool, n);
    }
    if Ranks(kept, order[..n]) {
      assert |multiset(Order(kept))| == |multiset(order[..n])|;
      forall p | n <= p < |order| ensures order[p] !in order[..n] {
        assert order[n..][p - n] == order[p];
      }
    }
  }

  lemma OrderCount(r: Ranking, pool: seq<Id>)
    requires Ranks(r, pool)
    ensures |Order(r)| == |pool| && Paired(r.fronts)
  {
    hide Order;
    assert |multiset(Order(r))| == |multiset(pool)|;
    forall i | 0 <= i < |r.fronts| ensures |r.fronts[i].ids| == |r.fronts[i].scores| {
      assert WellFormed(r.fronts[i], i + 1);
    }
  }

  lemma {:induction false} RestrictedOrder(r: Ranking, s: set<Id>)
    requires Paired(r.fronts)
    ensures Order(Restricted(r, s)) == Keep(Order(r), s)
  {
    hide Keep, KeepScores, Flatten;
    KeepFlatten(r.fronts, s);
    KeepConcat(Flatten(r.fronts), r.infeasible, s);
  }

  lemma RestrictedWellFormed(r: Ranking, pool: seq<Id>, n: nat)
    requires Ranks(r, pool) && n <= |Order(r)| && Separated(Order(r), n) && Paired(r.fronts)
    ensures var kept := Restricted(r, Members(Order(r)[..n])).fronts;
      forall i :: 0 <= i < |kept| ==> WellFormed(kept[i], i + 1)
  {
    hide Order, Keep, KeepScores, Flatten, WellFormed;
    KeptFrontsWellFormed(r, pool, n, |r.fronts|);
    assert r.fronts[..|r.fronts|] == r.fronts;
  }

  lemma {:induction false} KeepAll(x: seq<Id>, s: set<Id>)
    requires forall i :: 0 <= i < |x| ==> x[i] in s
    ensures Keep(x, s) == x
  {
    if x != [] {
      KeepAll(x[..|x| - 1], s);
    }
  }

  lemma {:induction false} KeepNone(x: seq<Id>, s: set<Id>)
    ensures Keep(x, s) == [] <==> forall i :: 0 <= i < |x| ==> x[i] !in s
  {
    if x != [] {
      var n := |x| - 1;
      KeepNone(x[..n], s);
      if Keep(x[..n], s) != [] {
        var i :| 0 <= i < n && x[..n][i] in s;
        assert x[i] in s;
      }
    }
  }

  /** From a pool with distinct ids nothing is, and the cached ranking ranks exactly the
      survivors in the order they were selected. */
  lemma CachedRankingRanksSurvivors(r: Ranking, pool: seq<Id>, n: nat)
    requires Ranks(r, pool) && Distinct(pool) && n <= |pool|
    ensures |Order(r)| == |pool| && Separated(Order(r), n)
    ensures Paired(r.fronts) && Order(Restricted(r, Members(Order(r)[..n]))) == Order(r)[..n]
    ensures Ranks(Restricted(r, Members(Order(r)[..n])), Order(r)[..n])
  {
    hide Order, Keep, Restricted, Ranks;
    SurvivorsDistinct(r, pool, n);
    var order := Order(r);
    forall p | n <= p < |order| ensures order[p] !in order[..n] {
      assert forall q :: 0 <= q < n ==> order[..n][q] == order[q];
    }
    CachedRankingIff(r, pool, n);
    forall i | 0 <= i < |order[n..]| ensures order[n..][i] !in Members(order[..n]) {
      assert order[n..][i] == order[n + i];
    }
    KeepNone(order[n..], Members(order[..n]));
  }

  // ---- step size ----

  datatype MutationConfig = MutationConfig(minStep: real, maxStep: real, expansion: real, contraction: real,
                                           smoothing: real, limit: nat, initialStep: real)
  {
    ghost predicate Valid() {
      && 0.0 < minStep < maxStep && expansion > 1.0 && 0.0 < contraction < 1.0
      && 0.0 < smoothing <= 1.0 && limit >= 1 && minStep <= initialStep <= maxStep
    }
  }

  datatype StepFailure = StepNotPositive | SmoothedOutOfRange | RatioOutOfRange

  /** The one-fifth success rule.  A step inside its bounds grows while more than a fifth of the
      trials succeed and shrinks while fewer do, by the configured factors as far as the bounds
      allow; the success ratio itself is smoothed exponentially. */
  ghost predicate OneFifthRule(cfg: MutationConfig, step: real, smoothed: real, ratio: real, nextStep: real,
                               nextSmoothed: real)
    requires cfg.Valid()
  {
    && nextSmoothed - smoothed == Times(cfg.smoothing, ratio - smoothed)
    && (nextSmoothed > 0.2 ==> Scaled(cfg, step, cfg.expansion, nextStep))
    && (nextSmoothed < 0.2 ==> Scaled(cfg, step, cfg.contraction, nextStep))
    && (nextSmoothed == 0.2 ==> Scaled(cfg, step, 1.0, nextStep))
    && (cfg.minStep <= step <= cfg.maxStep ==>
          (nextStep > step <==> nextSmoothed > 0.2 && step < cfg.maxStep)
          && (nextStep < step <==> nextSmoothed < 0.2 && step > cfg.minStep))
  }

  /** next is factor times step, held inside the bounds. */
  ghost predicate Scaled(cfg: MutationConfig, step: real, factor: real, next: real) {
    && cfg.minStep <= next <= cfg.maxStep
    && (next == Times(step, factor) || next == cfg.minStep > Times(step, factor)
        || next == cfg.maxStep < Times(step, factor))
  }

  /** Grow above 0.2, shrink below, and clamp. */
  method AdaptStepSize(cfg: MutationConfig, step: real, smoothed: real, ratio: real)
    returns (r: Result<(real, real), StepFailure>)
    requires cfg.Valid()
    ensures r.Ok? <==> step > 0.0 && 0.0 <= smoothed <= 1.0 && 0.0 <= ratio <= 1.0
    ensures r == Err(StepNotPositive) <==> step <= 0.0
    ensures r == Err(SmoothedOutOfRange) <==> step > 0.0 && !(0.0 <= smoothed <= 1.0)
    ensures r == Err(RatioOutOfRange) <==> step > 0.0 && 0.0 <= smoothed <= 1.0 && !(0.0 <= ratio <= 1.0)
    ensures r.Ok? ==>
      && cfg.minStep <= r.value.0 <= cfg.maxStep
      && Min(smoothed, ratio) <= r.value.1 <= Max(smoothed, ratio)
      && OneFifthRule(cfg, step, smoothed, ratio, r.value.0, r.value.1)
  {
    hide Times;
    if step <= 0.0 {
      return Err(StepNotPositive);
    }
    if !(0.0 <= smoothed <= 1.0) {
      return Err(SmoothedOutOfRange);
    }
    if !(0.0 <= ratio <= 1.0) {
      return Err(RatioOutOfRange);
    }
    WeightedMeanBetween(cfg.smoothing, smoothed, ratio, Min(smoothed, ratio), Max(smoothed, ratio));
    var next := Clip(Times(cfg.smoothing, ratio) + Times(1.0 - cfg.smoothing, smoothed), 0.0, 1.0);
    SmoothedMove(cfg.smoothing, smoothed, ratio);
    var size := step;
    TimesOne(step);
    TimesStrict(step, 1.0, cfg.expansion);
    TimesStrict(step, cfg.contraction, 1.0);
    if next > 0.2 {
      size := Times(step, cfg.expansion);
    } else if next < 0.2 {
      size := Times(step, cfg.contraction);
    }
    r := Ok((Clip(size, cfg.minStep, cfg.maxStep), next));
  }

  lemma SmoothedMove(rate: real, was: real, seen: real)
    ensures Times(rate, seen) + Times(1.0 - rate, was) - was == Times(rate, seen - was)
  {
  }

  // ---- stagnation ----

  datatype Stagnation = Stagnation(count: nat, cataclysm: bool)

  /** One generation of the counter: count consecutive stagnant generations, and fire
      and restart on reaching the limit. */
  function Monitor(limit: nat, count: nat, stagnant: bool): Stagnation {
    var next := if stagnant then count + 1 else 0;
    if next >= limit then Stagnation(0, true) else Stagnation(next, false)
  }

  /** The counter after a run of generations. */
  function MonitorRun(limit: nat, flags: seq<bool>): Stagnation {
    if flags == [] then Stagnation(0, false)
    else Monitor(limit, MonitorRun(limit, flags[..|flags| - 1]).count, flags[|flags| - 1])
  }

  function Cataclysms(limit: nat, flags: seq<bool>): nat {
    if flags == [] then 0
    else Cataclysms(limit, flags[..|flags| - 1]) + if MonitorRun(limit, flags).cataclysm then 1 else 0
  }

  /** How many of the latest generations were stagnant without a break. */
  ghost function StagnantTail(flags: seq<bool>): (n: nat)
    ensures n <= |flags|
    ensures forall i :: |flags| - n <= i < |flags| ==> flags[i]
    ensures n < |flags| ==> !flags[|flags| - n - 1]
  {
    if flags == [] || !flags[|flags| - 1] then 0 else StagnantTail(flags[..|flags| - 1]) + 1
  }

  /** The counter is the unbroken stagnant stretch modulo the limit, and a cataclysm
      fires exactly when that stretch completes a multiple of it. */
  lemma {:induction false} CounterIsStretch(limit: nat, flags: seq<bool>)
    requires limit >= 1
    ensures MonitorRun(limit, flags).count == StagnantTail(flags) % limit
    ensures MonitorRun(limit, flags).cataclysm <==> StagnantTail(flags) > 0 && StagnantTail(flags) % limit == 0
  {
    if flags != [] {
      var n := |flags| - 1;
      CounterIsStretch(limit, flags[..n]);
      NextRemainder(StagnantTail(flags[..n]), limit);
      ZeroRemainder(limit);
    }
  }

  lemma NextRemainder(a: nat, m: nat)
    requires m >= 1
    ensures (a + 1) % m == if a % m + 1 == m then 0 else a % m + 1
  {
    var q, r := a / m, a % m;
    assert a == q * m + r;
    if r + 1 == m {
      assert a + 1 == (q + 1) * m;
      RemainderIs(a + 1, q + 1, 0, m);
    } else {
      RemainderIs(a + 1, q, r + 1, m);
    }
  }

  lemma RemainderIs(a: int, q: int, r: int, m: nat)
    requires m >= 1 && a == q * m + r && 0 <= r < m
    ensures a % m == r
  {
    var d := a / m - q;
    assert a == (a / m) * m + a % m;
    assert d * m == r - a % m;
    NoMultipleInside(d, m);
  }

  lemma NoMultipleInside(d: int, m: int)
    requires m >= 1
    ensures d >= 1 ==> d * m >= m
    ensures d <= -1 ==> d * m <= -m
  {
  }

  lemma ZeroRemainder(m: nat)
    requires m >= 1
    ensures 0 % m == 0
  {
  }

  /** The counter stays below its limit, and every cataclysm used up a full limit of
      generations. */
  lemma {:induction false} CataclysmsAreRare(limit: nat, flags: seq<bool>)
    requires limit >= 1
    ensures MonitorRun(limit, flags).count < limit
    ensures limit * Cataclysms(limit, flags) + MonitorRun(limit, flags).count <= |flags|
  {
    if flags != [] {
      var n := |flags| - 1;
      CataclysmsAreRare(limit, flags[..n]);
      var c := Cataclysms(limit, flags[..n]);
      assert limit * (c + 1) == limit * c + limit;
    }
  }

  // ---- the engine ----

  datatype GenState = GenState(generation: nat, population: nat, step: real, smoothed: real, stagnation: nat,
                               cataclysm: bool, survivors: seq<Id>, firstFront: nat)

  datatype Failure = FitnessCount | StateSize | OffspringCount

  /** What the state record checks of itself. */
  ghost predicate StateValid(s: GenState) {
    && s.population >= 1 && s.step > 0.0 && 0.0 <= s.smoothed <= 1.0
    && (s.survivors != [] ==> |s.survivors| == s.population)
  }

  /** The members of the first front. */
  function FirstFront(r: Ranking): set<Id> {
    if r.fronts == [] then {} else Members(r.fronts[0].ids)
  }

  class GenerationalLifecycleEngine {
    const cfg: MutationConfig
    var cached: Option<(seq<Id>, Ranking)>

    ghost predicate Valid()
      reads this
    {
      cfg.Valid()
    }

    /** A cached ranking ranks the population it is filed under. */
    ghost predicate CacheSound()
      reads this
    {
      cached.Some? ==> Ranks(cached.value.1, cached.value.0)
    }

    constructor (cfg: MutationConfig)
      requires cfg.Valid()
      ensures Valid() && this.cfg == cfg && cached.None? && CacheSound()
    {
      this.cfg := cfg;
      cached := None;
    }

    /** The parents' ranking, from the cache when it is filed under these very parents.
        Whichever way it comes, it ranks them as long as the cache is sound. */
    method ParentRanking(parents: seq<Id>, recomputed: Ranking) returns (r: Ranking)
      requires Valid() && Ranks(recomputed, parents)
      ensures CacheSound() ==> Ranks(r, parents)
      ensures r == if cached.Some? && cached.value.0 == parents then cached.value.1 else recomputed
    {
      r := if cached.Some? && cached.value.0 == parents then cached.value.1 else recomputed;
    }

    /** Selection, adaptation and monitoring of one generation, given the joint ranking,
        the offspring's success ratio and whether the survivors are stagnant. */
    method StepGeneration(parents: seq<Id>, chromosomes: nat, offspring: seq<Id>, s: GenState, joint: Ranking,
                          ratio: real, stagnant: bool)
      returns (r: Result<GenState, Failure>)
      requires Valid() && StateValid(s) && Ranks(joint, parents + offspring) && 0.0 <= ratio <= 1.0
      modifies this
      ensures Valid()
      ensures r == Err(FitnessCount) <==> |parents| != chromosomes
      ensures r == Err(StateSize) <==> |parents| == chromosomes != s.population
      ensures r == Err(OffspringCount) <==> |parents| == chromosomes == s.population && |offspring| != chromosomes
      ensures r.Ok? <==> |parents| == chromosomes == s.population && |offspring| == chromosomes
      ensures r.Err? ==> cached == old(cached)
      ensures r.Ok? ==>
        && StateValid(r.value) && r.value.stagnation < cfg.limit
        && r.value.generation == s.generation + 1 && r.value.population == s.population
        && cfg.minStep <= r.value.step <= cfg.maxStep
        && OneFifthRule(cfg, s.step, s.smoothed, ratio, r.value.step, r.value.smoothed)
        && |Order(joint)| == 2 * s.population
        && r.value.survivors == Order(joint)[..s.population]
        && (Distinct(parents + offspring) ==> Distinct(r.value.survivors))
        && r.value.firstFront == |Keep(r.value.survivors, FirstFront(joint))|
        && Stagnation(r.value.stagnation, r.value.cataclysm)
           == Monitor(cfg.limit, s.stagnation, s.population >= 2 && stagnant)
      ensures r.Ok? ==>
        && cached.Some? && cached.value.0 == r.value.survivors
        && r.value.survivors <= Order(cached.value.1)
        && Paired(joint.fronts) && cached.value.1 == Restricted(joint, Members(r.value.survivors))
        && (CacheSound() <==> Separated(Order(joint), s.population))
        && (Distinct(parents + offspring) ==> CacheSound())
    {
      hide Order, Ranks, Distinct, Separated, Restricted, Members, Times, Keep, FirstFront, OneFifthRule;
      var n := chromosomes;
      if |parents| != n {
        return Err(FitnessCount);
      }
      if s.population != n {
        return Err(StateSize);
      }
      if |offspring| != n {
        return Err(OffspringCount);
      }
      CachedRankingIff(joint, parents + offspring, n);
      if Distinct(parents + offspring) {
        SurvivorsDistinct(joint, parents + offspring, n);
        CachedRankingRanksSurvivors(joint, parents + offspring, n);
      }
      var surviving := Select(joint, n);
      var firstFront := CountFirstFront(joint, surviving);
      var adapted := AdaptStepSize(cfg, s.step, s.smoothed, ratio);
      var monitored := Monitor(cfg.limit, s.stagnation, n >= 2 && stagnant);
      var kept := RestrictRanking(joint, surviving);
      cached := Some((surviving, kept));
      r := Ok(GenState(s.generation + 1, n, adapted.value.0, adapted.value.1, monitored.count, monitored.cataclysm,
                       surviving, firstFront));
    }

    /** How many survivors are in the first front. */
    method CountFirstFront(joint: Ranking, surviving: seq<Id>) returns (count: nat)
      ensures count == |Keep(surviving, FirstFront(joint))|
    {
      var first := FirstFront(joint);
      count := 0;
      for i := 0 to |surviving|
        invariant count == |Keep(surviving[..i], first)|
      {
        assert surviving[..i + 1][..i] == surviving[..i];
        if surviving[i] in first {
          count := count + 1;
        }
      }
      assert surviving[..|surviving|] == surviving;
    }
  }

  /** From a pool with distinct ids the recorded first-front count is the size of the first
      front, or the population when that is smaller. */
  lemma FirstFrontCount(r: Ranking, pool: seq<Id>, n: nat)
    requires Ranks(r, pool) && Distinct(pool) && n <= |pool|
    ensures |Order(r)| == |pool|
    ensures r.fronts == [] ==> |Keep(Order(r)[..n], FirstFront(r))| == 0
    ensures r.fronts != [] ==> |Keep(Order(r)[..n], FirstFront(r))|
                               == if |r.fronts[0].ids| <= n then |r.fronts[0].ids| else n
  {
    hide Order, Ranks, Keep;
    SurvivorsDistinct(r, pool, n);
    var kept := Order(r)[..n];
    if r.fronts == [] {
      KeepNone(kept, {});
    } else {
      FrontSegment(r, 0);
      assert r.fronts[..0] == [];
      var m := |r.fronts[0].ids|;
      assert r.fronts[0].ids == Order(r)[..m];
      FirstMembers(Order(r), m);
      forall p | 0 <= p < |kept| ensures kept[p] in FirstFront(r) <==> p < m {
        assert kept[p] == Order(r)[p];
      }
      KeepCut(kept, seq(n, p => 0.0), FirstFront(r), if m <= n then m else n);
    }
  }

  lemma FirstMembers(x: seq<Id>, m: nat)
    requires Distinct(x) && m <= |x|
    ensures forall p :: 0 <= p < |x| ==> (x[p] in x[..m] <==> p < m)
  {
    forall p | 0 <= p < |x| ensures x[p] in x[..m] <==> p < m {
      if p < m {
        assert x[p] == x[..m][p];
      }
    }
  }

  // ---- when ids repeat ----

  /** Survivors are distinct under every ranking of a pool exactly when the pool's ids
      are: offspring reported under a parent's id can both survive under one name, and
      the next population, keyed by id, is then smaller than its recorded size. */
  lemma DistinctSurvivorsIffDistinctPool(pool: seq<Id>, n: nat)
    requires 2 <= n <= |pool|
    ensures (forall r: Ranking :: Ranks(r, pool) ==> n <= |Order(r)| && Distinct(Order(r)[..n])) <==> Distinct(pool)
  {
    hide Order, Ranks;
    if Distinct(pool) {
      forall r: Ranking | Ranks(r, pool) ensures n <= |Order(r)| && Distinct(Order(r)[..n]) {
        SurvivorsDistinct(r, pool, n);
      }
    } else {
      var i, j :| 0 <= i < j < |pool| && pool[i] == pool[j];
      var r := RepeatsFirst(pool, i, j);
      var kept := Order(r)[..n];
      assert kept[0] == kept[1];
    }
  }

  /** The cached ranking ranks the survivors of every ranking of a pool exactly when the
      pool's ids are distinct: otherwise one of two candidates with the same id may be
      selected and the other, discarded, is cached beside it. */
  lemma CacheSoundIffDistinctPool(pool: seq<Id>, n: nat)
    requires 1 <= n < |pool|
    ensures (forall r: Ranking :: Ranks(r, pool) ==> n <= |Order(r)| && Separated(Order(r), n)) <==> Distinct(pool)
  {
    hide Order, Ranks;
    if Distinct(pool) {
      forall r: Ranking | Ranks(r, pool) ensures n <= |Order(r)| && Separated(Order(r), n) {
        CachedRankingRanksSurvivors(r, pool, n);
      }
    } else {
      var i, j :| 0 <= i < j < |pool| && pool[i] == pool[j];
      var r := RepeatsApart(pool, i, j);
      assert Order(r)[..n][0] == Order(r)[|pool| - 1];
    }
  }

  /** A ranking that considers one given place of the pool first and another last. */
  lemma RepeatsApart(pool: seq<Id>, i: nat, j: nat) returns (r: Ranking)
    requires i < j < |pool|
    ensures Ranks(r, pool) && |Order(r)| == |pool|
    ensures Order(r)[0] == pool[i] && Order(r)[|pool| - 1] == pool[j]
  {
    var a, b, c := pool[..i], pool[i + 1..j], pool[j + 1..];
    r := Ranking([], [pool[i]] + (a + b + c) + [pool[j]]);
    assert Order(r) == [pool[i]] + (a + b + c) + [pool[j]];
    assert pool == (a + [pool[i]] + b) + ([pool[j]] + c);
  }

  /** A ranking that considers two given places of the pool first. */
  lemma RepeatsFirst(pool: seq<Id>, i: nat, j: nat) returns (r: Ranking)
    requires i < j < |pool|
    ensures Ranks(r, pool) && |Order(r)| == |pool| && Order(r)[0] == pool[i] && Order(r)[1] == pool[j]
  {
    var a, b, c := pool[..i], pool[i + 1..j], pool[j + 1..];
    r := Ranking([], [pool[i], pool[j]] + (a + b + c));
    assert Order(r) == [pool[i], pool[j]] + (a + b + c);
    assert pool == (a + [pool[i]] + b) + ([pool[j]] + c);
  }
}
