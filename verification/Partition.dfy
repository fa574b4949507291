/** Contiguous blocks of samples, the test combinations drawn from them, and the capped
    selection of combinations. */
module Partition {
  import opened Results
  import opened Rounding
  import opened Combinatorics
  import Vectors

  datatype Config = Config(nSplits: nat, nTestSplits: nat, embargoPct: real, embargoBars: Option<nat>,
                           maxSplits: Option<nat>, minTrainRatio: real, forwardChaining: bool)
  {
    predicate Valid() {
      && nSplits >= 2 && 1 <= nTestSplits < nSplits
      && 0.0 <= embargoPct < 1.0
      && (maxSplits.Some? ==> maxSplits.value >= 1)
      && 0.0 < minTrainRatio < 1.0
    }
  }

  /** The samples lo .. hi-1. */
  datatype Block = Block(lo: nat, hi: nat)

  function Least(a: nat, b: nat): nat { if a < b then a else b }

  /** Where block i starts: every block has q samples and the first r one more. */
  function Cut(n: nat, splits: nat, i: nat): nat
    requires splits > 0
  {
    i * (n / splits) + Least(i, n % splits)
  }

  function Blocks(n: nat, splits: nat): (b: seq<Block>)
    requires splits > 0
    ensures |b| == splits
    ensures forall i :: 0 <= i < splits ==> b[i] == Block(Cut(n, splits, i), Cut(n, splits, i + 1))
  {
    seq(splits, i requires 0 <= i < splits => Block(Cut(n, splits, i), Cut(n, splits, i + 1)))
  }

  lemma CutStep(n: nat, splits: nat, i: nat)
    requires splits > 0
    ensures Cut(n, splits, i + 1) == Cut(n, splits, i) + n / splits + if i < n % splits then 1 else 0
  {
    assert (i + 1) * (n / splits) == i * (n / splits) + n / splits;
  }

  method PartitionGroups(n: nat, splits: nat) returns (blocks: seq<Block>)
    requires splits > 0
    ensures blocks == Blocks(n, splits)
  {
    var size, rest := n / splits, n % splits;
    blocks := [];
    var cursor := 0;
    for i := 0 to splits
      invariant |blocks| == i && cursor == Cut(n, splits, i)
      invariant forall j :: 0 <= j < i ==> blocks[j] == Blocks(n, splits)[j]
    {
      var sz := size + if i < rest then 1 else 0;
      CutStep(n, splits, i);
      blocks := blocks + [Block(cursor, cursor + sz)];
      cursor := cursor + sz;
    }
  }

  // ---- what the partition promises ----

  lemma {:induction false} CutMonotone(n: nat, splits: nat, i: nat, j: nat)
    requires splits > 0 && i <= j
    ensures Cut(n, splits, i) <= Cut(n, splits, j)
    ensures i < j && n >= splits ==> Cut(n, splits, i) < Cut(n, splits, j)
    decreases j
  {
    if i < j {
      CutMonotone(n, splits, i, j - 1);
      CutStep(n, splits, j - 1);
      if n >= splits {
        assert n / splits >= 1;
      }
    }
  }

  lemma CutEnds(n: nat, splits: nat)
    requires splits > 0
    ensures Cut(n, splits, 0) == 0 && Cut(n, splits, splits) == n
  {
    assert splits * (n / splits) + n % splits == n;
  }

  /** The blocks are balanced, consecutive, and together hold every sample exactly once. */
  lemma PartitionExact(n: nat, splits: nat, x: nat) returns (g: nat)
    requires splits > 0 && x < n
    ensures g < splits && Blocks(n, splits)[g].lo <= x < Blocks(n, splits)[g].hi
    ensures forall h :: 0 <= h < splits && Blocks(n, splits)[h].lo <= x < Blocks(n, splits)[h].hi ==> h == g
  {
    CutEnds(n, splits);
    g := 0;
    while Cut(n, splits, g + 1) <= x
      invariant g < splits && Cut(n, splits, g) <= x
      decreases splits - g
    {
      if g + 1 == splits {
        assert false;
      }
      g := g + 1;
    }
    forall h | 0 <= h < splits && Blocks(n, splits)[h].lo <= x < Blocks(n, splits)[h].hi ensures h == g {
      if h < g {
        CutMonotone(n, splits, h + 1, g);
      } else if g < h {
        CutMonotone(n, splits, g + 1, h);
      }
    }
  }

  /** No two sizes differ by more than one, and the larger blocks come first. */
  lemma PartitionBalanced(n: nat, splits: nat, i: nat, j: nat)
    requires splits > 0 && i < j < splits
    ensures var b := Blocks(n, splits); 0 <= (b[i].hi - b[i].lo) - (b[j].hi - b[j].lo) <= 1
  {
    CutStep(n, splits, i);
    CutStep(n, splits, j);
  }

  /** The blocks stand in the order of their samples, each beginning where the last one ended. */
  lemma PartitionConsecutive(n: nat, splits: nat, i: nat, j: nat)
    requires splits > 0 && i < j < splits
    ensures var b := Blocks(n, splits);
      && b[0].lo == 0 && b[splits - 1].hi == n
      && b[i].lo <= b[i].hi <= b[j].lo <= b[j].hi
      && (j == i + 1 ==> b[i].hi == b[j].lo)
  {
    hide Cut;
    CutEnds(n, splits);
    CutMonotone(n, splits, i, i + 1);
    CutMonotone(n, splits, i + 1, j);
    CutMonotone(n, splits, j, j + 1);
  }

  // ---- test combinations ----

  /** k consecutive groups starting at start. */
  function Window(start: nat, k: nat): (w: seq<nat>)
    ensures |w| == k && forall i :: 0 <= i < k ==> w[i] == start + i
  {
    seq(k, i requires 0 <= i < k => start + i)
  }

  function Windows(n: nat, k: nat): (w: seq<seq<nat>>)
    requires k <= n
    ensures |w| == n - k && forall i :: 0 <= i < n - k ==> w[i] == Window(i + 1, k)
  {
    seq(n - k, i requires 0 <= i < n - k => Window(i + 1, k))
  }

  /** k consecutive groups, none of them the first. */
  ghost predicate IsWindow(c: seq<nat>, k: nat) { exists s: nat :: 1 <= s && c == Window(s, k) }

  function AllCombinations(cfg: Config): seq<seq<nat>>
    requires cfg.Valid()
  {
    if cfg.forwardChaining then Windows(cfg.nSplits, cfg.nTestSplits)
    else Combinations(0, cfg.nSplits, cfg.nTestSplits)
  }

  /** Position j of m evenly spaced positions over 0 .. total-1, before rounding. */
  function Spaced(total: nat, m: nat, j: nat): real
    requires total > 0 && m > 0
  {
    if m == 1 then 0.0 else (j * (total - 1)) as real / (m - 1) as real
  }

  function StrideIndex(total: nat, m: nat, j: nat): int
    requires total > 0 && m > 0
  {
    RoundHalfEven(Spaced(total, m, j))
  }

  lemma SpacedStep(total: nat, m: nat, j: nat)
    requires 1 <= m < total && j + 1 < m
    ensures Spaced(total, m, j + 1) - Spaced(total, m, j) > 1.0
  {
    var t, d := (total - 1) as real, (m - 1) as real;
    assert ((j + 1) * (total - 1)) as real == (j * (total - 1)) as real + t;
    FractionStep((j * (total - 1)) as real, t, d);
  }

  lemma FractionStep(a: real, t: real, d: real)
    requires 0.0 < d < t
    ensures (a + t) / d - a / d > 1.0
  {
    var q, p := (a + t) / d, a / d;
    assert q * d == a + t && p * d == a;
    assert (q - p) * d == t;
    assert q - p <= 1.0 ==> (q - p) * d <= 1.0 * d;
  }

  /** The capped selection picks distinct combinations in order, from the first to the last. */
  lemma {:induction false} StrideIncreasing(total: nat, m: nat, i: nat, j: nat)
    requires 1 <= m < total && i < j < m
    ensures StrideIndex(total, m, i) < StrideIndex(total, m, j)
    decreases j
  {
    SpacedStep(total, m, j - 1);
    RoundSeparates(Spaced(total, m, j - 1), Spaced(total, m, j));
    if i < j - 1 {
      StrideIncreasing(total, m, i, j - 1);
    }
  }

  /** Each position kept is the whole number nearest to its evenly spaced one, which the m
      positions from 0 to total - 1 divide into m - 1 equal steps; ties go to the even one. */
  lemma StrideNearest(total: nat, m: nat, j: nat)
    requires 1 < m < total && j < m
    ensures var off := StrideIndex(total, m, j) * (m - 1) - j * (total - 1);
      && -(m - 1) <= 2 * off <= m - 1
      && (2 * off == m - 1 || 2 * off == -(m - 1) ==> StrideIndex(total, m, j) % 2 == 0)
  {
    hide RoundHalfEven;
    var r, d, a := StrideIndex(total, m, j), m - 1, j * (total - 1);
    RoundHalfEvenIff(Spaced(total, m, j), r);
    NearestFraction(r, d, r * d, a);
  }

  lemma ErrorTimesStep(r: real, q: real, d: real, a: real)
    requires d > 0.0 && q == a / d && -0.5 <= r - q <= 0.5
    ensures Vectors.Times(r - q, d) == Vectors.Times(r, d) - a && -d <= 2.0 * Vectors.Times(r - q, d) <= d
    ensures 2.0 * Vectors.Times(r - q, d) == d ==> r == q + 0.5
    ensures 2.0 * Vectors.Times(r - q, d) == -d ==> r == q - 0.5
  {
    assert q * d == a;
    var e := r - q;
    Vectors.NonNegProduct(0.5 - e, d);
    Vectors.NonNegProduct(0.5 + e, d);
    if 0.5 - e > 0.0 {
      Vectors.PositiveProduct(0.5 - e, d);
    }
    if 0.5 + e > 0.0 {
      Vectors.PositiveProduct(0.5 + e, d);
    }
  }

  lemma AsReal(k: int, d: int, x: real)
    requires k as real == x && -(d as real) <= 2.0 * x <= d as real
    ensures -d <= 2 * k <= d
    ensures 2 * k == d ==> 2.0 * x == d as real
    ensures 2 * k == -d ==> 2.0 * x == -(d as real)
  {
  }

  lemma ProductAsReal(r: int, d: int)
    ensures (r * d) as real == Vectors.Times(r as real, d as real)
  {
  }

  lemma NearestFraction(r: int, d: int, p: int, a: nat)
    requires d > 0 && IsRounded(a as real / d as real, r) && p == r * d
    ensures -d <= 2 * (p - a) <= d
    ensures 2 * (p - a) == d || 2 * (p - a) == -d ==> r % 2 == 0
  {
    hide Vectors.Times;
    var q := a as real / d as real;
    ErrorTimesStep(r as real, q, d as real, a as real);
    ProductAsReal(r, d);
    AsReal(p - a, d, Vectors.Times(r as real - q, d as real));
  }

  lemma StrideEnds(total: nat, m: nat)
    requires 1 <= m < total
    ensures StrideIndex(total, m, 0) == 0
    ensures m > 1 ==> StrideIndex(total, m, m - 1) == total - 1
  {
    if m > 1 {
      FractionOfMultiple(m - 1, total - 1);
      FractionOfMultiple(m - 1, 0);
      assert 0 * (total - 1) == 0;
      RoundInteger(total - 1);
    }
    RoundInteger(0);
  }

  lemma FractionOfMultiple(d: nat, t: nat)
    requires d > 0
    ensures (d * t) as real / d as real == t as real
  {
    assert (d * t) as real == d as real * t as real;
  }

  lemma StrideInRange(total: nat, m: nat, j: nat)
    requires 1 <= m < total && j < m
    ensures 0 <= StrideIndex(total, m, j) < total
  {
    StrideEnds(total, m);
    if 0 < j {
      StrideIncreasing(total, m, 0, j);
    }
    if j < m - 1 {
      StrideIncreasing(total, m, j, m - 1);
    }
  }

  ghost predicate Capped(cfg: Config) requires cfg.Valid() {
    cfg.maxSplits.Some? && |AllCombinations(cfg)| > cfg.maxSplits.value
  }

  /** The positions kept: all of them, or the evenly spaced ones. */
  ghost predicate Chosen(cfg: Config, combos: seq<seq<nat>>)
    requires cfg.Valid()
  {
    var all := AllCombinations(cfg);
    if Capped(cfg) then
      && |combos| == cfg.maxSplits.value
      && forall j :: 0 <= j < |combos| ==>
           && 0 <= StrideIndex(|all|, |combos|, j) < |all|
           && combos[j] == all[StrideIndex(|all|, |combos|, j)]
    else combos == all
  }

  method GenerateTestCombinations(cfg: Config) returns (combos: seq<seq<nat>>)
    requires cfg.Valid()
    ensures Chosen(cfg, combos)
  {
    var n, k := cfg.nSplits, cfg.nTestSplits;
    var all;
    if cfg.forwardChaining {
      all := [];
      for start := 1 to n - k + 1
        invariant |all| == start - 1
        invariant forall i :: 0 <= i < |all| ==> all[i] == Window(i + 1, k)
      {
        all := all + [Window(start, k)];
      }
    } else {
      all := Combinations(0, n, k);
    }
    combos := all;
    if cfg.maxSplits.Some? && |all| > cfg.maxSplits.value {
      var m := cfg.maxSplits.value;
      combos := [];
      for j := 0 to m
        invariant |combos| == j
        invariant forall i :: 0 <= i < j ==>
          0 <= StrideIndex(|all|, m, i) < |all| && combos[i] == all[StrideIndex(|all|, m, i)]
      {
        StrideInRange(|all|, m, j);
        combos := combos + [all[StrideIndex(|all|, m, j)]];
      }
    }
  }

  /** Every generated combination selects k groups in increasing order, and none is repeated. */
  lemma ChosenSelections(cfg: Config, combos: seq<seq<nat>>)
    requires cfg.Valid() && Chosen(cfg, combos)
    ensures forall f :: 0 <= f < |combos| ==> Selection(combos[f], 0, cfg.nSplits, cfg.nTestSplits)
    ensures forall f, g :: 0 <= f < g < |combos| ==> combos[f] != combos[g]
    ensures cfg.forwardChaining ==>
      forall f :: 0 <= f < |combos| ==> IsWindow(combos[f], cfg.nTestSplits)
    ensures cfg.forwardChaining && cfg.maxSplits.None? ==>
      |combos| == cfg.nSplits - cfg.nTestSplits
      && forall f :: 0 <= f < |combos| ==> |combos[f]| == cfg.nTestSplits && combos[f][0] == f + 1
  {
    var all := AllCombinations(cfg);
    CombinationsSound(0, cfg.nSplits, cfg.nTestSplits);
    forall f | 0 <= f < |all|
      ensures Selection(all[f], 0, cfg.nSplits, cfg.nTestSplits)
      ensures cfg.forwardChaining ==> all[f] == Window(f + 1, cfg.nTestSplits)
    {
    }
    forall f, g | 0 <= f < g < |all| ensures all[f] != all[g] {
      if cfg.forwardChaining {
        assert all[f][0] == f + 1 && all[g][0] == g + 1;
      } else {
        CombinationsDistinct(cfg.nSplits, cfg.nTestSplits, f, g);
      }
    }
    forall f | 0 <= f < |combos|
      ensures cfg.forwardChaining ==> IsWindow(combos[f], cfg.nTestSplits)
    {
      var i: nat := if Capped(cfg) then StrideIndex(|all|, |combos|, f) else f;
      assert combos[f] == all[i];
      assert cfg.forwardChaining ==> 1 <= i + 1 && combos[f] == Window(i + 1, cfg.nTestSplits);
    }
    if Capped(cfg) {
      forall f, g | 0 <= f < g < |combos| ensures combos[f] != combos[g] {
        StrideIncreasing(|all|, |combos|, f, g);
      }
    }
  }
}
