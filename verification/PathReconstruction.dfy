/** CombinatorialPurgedCV.reconstruct_paths: fold predictions stitched into complete paths,
    the p-th occurrence of a group going to path p. */
module PathReconstruction {
  import opened Results
  import opened Combinatorics
  import opened Partition

  datatype Error = ForwardChaining | FoldCount | FoldLength(fold: nat) | Unrepresented

  function Size(b: Block): nat { if b.lo <= b.hi then b.hi - b.lo else 0 }

  ghost predicate Fits(blocks: seq<Block>, combo: seq<nat>) {
    forall i :: 0 <= i < |combo| ==> combo[i] < |blocks|
  }

  /** Where the predictions of the j-th selected group start within the fold's vector. */
  function Offset(blocks: seq<Block>, combo: seq<nat>, j: nat): nat
    requires Fits(blocks, combo) && j <= |combo|
  {
    if j == 0 then 0 else Offset(blocks, combo, j - 1) + Size(blocks[combo[j - 1]])
  }

  lemma {:induction false} OffsetMonotone(blocks: seq<Block>, combo: seq<nat>, i: nat, j: nat)
    requires Fits(blocks, combo) && i <= j <= |combo|
    ensures Offset(blocks, combo, i) <= Offset(blocks, combo, j)
  {
    if i < j {
      OffsetMonotone(blocks, combo, i, j - 1);
    }
  }

  ghost predicate Sized(blocks: seq<Block>, combos: seq<seq<nat>>, preds: seq<seq<real>>, f: nat)
    requires f < |combos| == |preds|
  {
    Fits(blocks, combos[f]) && Increasing(combos[f]) && |preds[f]| == Offset(blocks, combos[f], |combos[f]|)
  }

  /** Fold f is the first whose vector has the wrong length. */
  ghost predicate FirstMissized(blocks: seq<Block>, combos: seq<seq<nat>>, preds: seq<seq<real>>, f: nat) {
    && f < |combos| == |preds| && !Sized(blocks, combos, preds, f)
    && forall i :: 0 <= i < f ==> Sized(blocks, combos, preds, i)
  }

  /** The fold predictions are complete: one number per test sample of each fold. */
  ghost predicate Complete(blocks: seq<Block>, combos: seq<seq<nat>>, preds: seq<seq<real>>) {
    && |combos| == |preds|
    && forall f :: 0 <= f < |combos| ==>
         Fits(blocks, combos[f]) && Increasing(combos[f]) && |preds[f]| == Offset(blocks, combos[f], |combos[f]|)
  }

  /** The position of group g in a combination that selects it. */
  function Position(combo: seq<nat>, g: nat): (j: nat)
    requires g in combo
    ensures j < |combo| && combo[j] == g
  {
    if combo[0] == g then 0 else 1 + Position(combo[1..], g)
  }

  /** The predictions of fold f for group g. */
  function Slice(blocks: seq<Block>, combo: seq<nat>, pred: seq<real>, g: nat): (s: seq<real>)
    requires Fits(blocks, combo) && g in combo && |pred| == Offset(blocks, combo, |combo|)
    ensures |s| == Size(blocks[g])
  {
    var j := Position(combo, g);
    OffsetMonotone(blocks, combo, j + 1, |combo|);
    pred[Offset(blocks, combo, j)..Offset(blocks, combo, j + 1)]
  }

  /** All slices of group g in fold order. */
  function Slices(blocks: seq<Block>, combos: seq<seq<nat>>, preds: seq<seq<real>>, g: nat): seq<seq<real>>
    requires Complete(blocks, combos, preds)
  {
    if combos == [] then []
    else
      var n := |combos| - 1;
      Slices(blocks, combos[..n], preds[..n], g)
      + if g in combos[n] then [Slice(blocks, combos[n], preds[n], g)] else []
  }

  /** The p-th slice of a group comes from the p-th fold that tests it. */
  lemma {:induction false} SlicesFollowOccurrences(blocks: seq<Block>, combos: seq<seq<nat>>, preds: seq<seq<real>>,
                                                   g: nat)
    requires Complete(blocks, combos, preds)
    ensures var o := Occurrences(combos, g);
      && |Slices(blocks, combos, preds, g)| == |o|
      && forall p :: 0 <= p < |o| ==>
           && o[p] < |combos| && g in combos[o[p]]
           && Slices(blocks, combos, preds, g)[p] == Slice(blocks, combos[o[p]], preds[o[p]], g)
  {
    if combos != [] {
      var n := |combos| - 1;
      SlicesFollowOccurrences(blocks, combos[..n], preds[..n], g);
      var o, o' := Occurrences(combos[..n], g), Occurrences(combos, g);
      forall p | 0 <= p < |o'|
        ensures o'[p] < |combos| && g in combos[o'[p]]
          && Slices(blocks, combos, preds, g)[p] == Slice(blocks, combos[o'[p]], preds[o'[p]], g)
      {
        if p < |o| {
          assert combos[..n][o[p]] == combos[o[p]] && preds[..n][o[p]] == preds[o[p]];
        }
      }
    }
  }

  // ---- reconstruction ----

  /** One fold's vector is cut into slices, each appended to its group's list. */
  method AppendFold(blocks: seq<Block>, combo: seq<nat>, pred: seq<real>, lists: seq<seq<seq<real>>>)
    returns (out: seq<seq<seq<real>>>)
    requires |lists| == |blocks| && Fits(blocks, combo) && Increasing(combo)
    requires |pred| == Offset(blocks, combo, |combo|)
    ensures |out| == |lists|
    ensures forall g :: 0 <= g < |lists| ==>
      out[g] == lists[g] + if g in combo then [Slice(blocks, combo, pred, g)] else []
  {
    out := lists;
    var cursor := 0;
    for j := 0 to |combo|
      invariant |out| == |lists| && cursor == Offset(blocks, combo, j)
      invariant forall g :: 0 <= g < |lists| ==>
        out[g] == lists[g] + if g in combo[..j] then [Slice(blocks, combo, pred, g)] else []
    {
      var g := combo[j];
      var len := Size(blocks[g]);
      OffsetMonotone(blocks, combo, j + 1, |combo|);
      assert g !in combo[..j];
      assert combo[..j + 1] == combo[..j] + [g];
      out := out[g := out[g] + [pred[cursor..cursor + len]]];
      cursor := cursor + len;
    }
    assert combo[..|combo|] == combo;
  }

  function MinLength(lists: seq<seq<seq<real>>>): nat
    requires lists != []
  {
    var n := |lists| - 1;
    if n == 0 then |lists[0]| else Least(MinLength(lists[..n]), |lists[n]|)
  }

  lemma {:induction false} MinLengthExact(lists: seq<seq<seq<real>>>)
    requires lists != []
    ensures forall g :: 0 <= g < |lists| ==> MinLength(lists) <= |lists[g]|
    ensures exists g :: 0 <= g < |lists| && MinLength(lists) == |lists[g]|
  {
    var n := |lists| - 1;
    if n == 0 {
      assert MinLength(lists) == |lists[0]|;
    } else {
      MinLengthExact(lists[..n]);
      var g :| 0 <= g < n && MinLength(lists[..n]) == |lists[..n][g]|;
      assert lists[g] == lists[..n][g];
      forall h | 0 <= h < |lists| ensures MinLength(lists) <= |lists[h]| {
        if h < n {
          assert lists[h] == lists[..n][h];
        }
      }
      if MinLength(lists) == |lists[n]| {
      } else {
        assert MinLength(lists) == |lists[g]|;
      }
    }
  }

  ghost predicate GroupLists(blocks: seq<Block>, combos: seq<seq<nat>>, preds: seq<seq<real>>,
                             lists: seq<seq<seq<real>>>)
    requires Complete(blocks, combos, preds)
  {
    |lists| == |blocks| && forall g :: 0 <= g < |blocks| ==> lists[g] == Slices(blocks, combos, preds, g)
  }

  method CollectSlices(blocks: seq<Block>, combos: seq<seq<nat>>, preds: seq<seq<real>>)
    returns (lists: seq<seq<seq<real>>>)
    requires Complete(blocks, combos, preds)
    ensures GroupLists(blocks, combos, preds, lists)
  {
    lists := seq(|blocks|, g => []);
    for f := 0 to |combos|
      invariant Complete(blocks, combos[..f], preds[..f])
      invariant GroupLists(blocks, combos[..f], preds[..f], lists)
    {
      lists := AppendFold(blocks, combos[f], preds[f], lists);
      assert combos[..f + 1][..f] == combos[..f] && preds[..f + 1][..f] == preds[..f];
    }
    assert combos[..|combos|] == combos && preds[..|combos|] == preds;
  }

  /** Cell x of path p holds the prediction for sample x made by the p-th fold that tests x's group. */
  ghost predicate CellFilled(blocks: seq<Block>, lists: seq<seq<seq<real>>>, paths: array2<Option<real>>, g: nat,
                             p: nat)
    reads paths
  {
    && g < |blocks| && g < |lists| && p < |lists[g]| && p < paths.Length0
    && blocks[g].hi <= paths.Length1 && |lists[g][p]| == Size(blocks[g])
    && forall x: nat :: blocks[g].lo <= x < blocks[g].hi ==> paths[p, x] == Some(lists[g][p][x - blocks[g].lo])
  }

  /** paths[path, lo..lo+|slice|] = slice, and nothing else changes. */
  method WriteSlice(paths: array2<Option<real>>, path: nat, lo: nat, slice: seq<real>)
    requires path < paths.Length0 && lo + |slice| <= paths.Length1
    modifies paths
    ensures forall p, x :: 0 <= p < paths.Length0 && 0 <= x < paths.Length1 ==>
      paths[p, x] == if p == path && lo <= x < lo + |slice| then Some(slice[x - lo]) else old(paths[p, x])
  {
    forall x | lo <= x < lo + |slice| {
      paths[path, x] := Some(slice[x - lo]);
    }
  }

  method FillPaths(n: nat, splits: nat, lists: seq<seq<seq<real>>>, nPaths: nat) returns (paths: array2<Option<real>>)
    requires splits > 0 && |lists| == splits
    requires forall g :: 0 <= g < splits ==> nPaths <= |lists[g]|
    requires forall g, p :: 0 <= g < splits && 0 <= p < |lists[g]| ==> |lists[g][p]| == Size(Blocks(n, splits)[g])
    ensures fresh(paths) && paths.Length0 == nPaths && paths.Length1 == n
    ensures forall g, p :: 0 <= g < splits && 0 <= p < nPaths ==> CellFilled(Blocks(n, splits), lists, paths, g, p)
  {
    hide Cut;
    var blocks := PartitionGroups(n, splits);
    paths := new Option<real>[nPaths, n]((i, j) => None);
    CutEnds(n, splits);
    for g := 0 to splits
      invariant forall h, p :: 0 <= h < g && 0 <= p < nPaths ==> CellFilled(blocks, lists, paths, h, p)
    {
      CutMonotone(n, splits, g, g + 1);
      CutMonotone(n, splits, g + 1, splits);
      for path := 0 to nPaths
        invariant forall h, p :: 0 <= h < g && 0 <= p < nPaths ==> CellFilled(blocks, lists, paths, h, p)
        invariant forall p :: 0 <= p < path ==> CellFilled(blocks, lists, paths, g, p)
      {
        label before:
        WriteSlice(paths, path, blocks[g].lo, lists[g][path]);
        forall h, p | 0 <= h < g && 0 <= p < nPaths ensures CellFilled(blocks, lists, paths, h, p) {
          CutMonotone(n, splits, h + 1, g);
          assert old@before(CellFilled(blocks, lists, paths, h, p));
        }
        forall p | 0 <= p < path ensures CellFilled(blocks, lists, paths, g, p) {
          assert old@before(CellFilled(blocks, lists, paths, g, p));
        }
      }
    }
  }

  /** Each fold's vector must hold exactly its test samples. */
  method CheckLengths(cfg: Config, blocks: seq<Block>, combos: seq<seq<nat>>, preds: seq<seq<real>>)
    returns (bad: Option<nat>)
    requires cfg.Valid() && |blocks| == cfg.nSplits && |combos| == |preds|
    requires forall f :: 0 <= f < |combos| ==> Selection(combos[f], 0, cfg.nSplits, cfg.nTestSplits)
    ensures bad.None? <==> Complete(blocks, combos, preds)
    ensures bad.Some? ==> FirstMissized(blocks, combos, preds, bad.value)
  {
    for f := 0 to |combos|
      invariant forall i :: 0 <= i < f ==> Sized(blocks, combos, preds, i)
    {
      if |preds[f]| != Offset(blocks, combos[f], |combos[f]|) {
        return Some(f);
      }
    }
    forall f | 0 <= f < |combos|
      ensures Fits(blocks, combos[f]) && Increasing(combos[f]) && |preds[f]| == Offset(blocks, combos[f], |combos[f]|)
    {
      assert Sized(blocks, combos, preds, f);
    }
    bad := None;
  }

  /** The paths, all of whose cells are filled from the folds. */
  ghost predicate Reconstructed(cfg: Config, n: nat, combos: seq<seq<nat>>, preds: seq<seq<real>>,
                                paths: array2<Option<real>>)
    requires cfg.Valid()
    reads paths
  {
    && Complete(Blocks(n, cfg.nSplits), combos, preds)
    && paths.Length0 == PathCount(cfg, combos) && paths.Length1 == n
    && forall g, p :: 0 <= g < cfg.nSplits && 0 <= p < paths.Length0 ==> Filled(cfg, n, combos, preds, paths, g, p)
  }

  method Assemble(cfg: Config, n: nat, combos: seq<seq<nat>>, preds: seq<seq<real>>)
    returns (paths: array2?<Option<real>>)
    requires cfg.Valid() && !cfg.forwardChaining && Chosen(cfg, combos)
    requires Complete(Blocks(n, cfg.nSplits), combos, preds)
    ensures paths == null <==> exists g :: 0 <= g < cfg.nSplits && |Occurrences(combos, g)| == 0
    ensures paths != null ==> fresh(paths) && Reconstructed(cfg, n, combos, preds, paths)
  {
    hide Complete, Chosen, Occurrences, Slices, MinLength, MinOccurrences, CellFilled, Filled, Capped, Cut;
    var blocks := PartitionGroups(n, cfg.nSplits);
    var lists := CollectSlices(blocks, combos, preds);
    MinLengthExact(lists);
    ListLengths(blocks, combos, preds, lists);
    var minPaths := MinLength(lists);
    if minPaths == 0 {
      ghost var g :| 0 <= g < |lists| && minPaths == |lists[g]|;
      assert |Occurrences(combos, g)| == 0;
      return null;
    }
    CountsAgree(cfg, combos);
    UncappedWithoutLimit(cfg);
    MinOccurrencesIsMinLength(cfg, combos, lists);
    var nPaths := if cfg.maxSplits.Some? then minPaths else Binomial(cfg.nSplits - 1, cfg.nTestSplits - 1);
    var filled := FillPaths(n, cfg.nSplits, lists, nPaths);
    forall g, p | 0 <= g < cfg.nSplits && 0 <= p < nPaths ensures Filled(cfg, n, combos, preds, filled, g, p) {
      CellsAreFilled(cfg, n, combos, preds, lists, filled, g, p);
    }
    paths := filled;
  }

  lemma UncappedWithoutLimit(cfg: Config)
    requires cfg.Valid()
    ensures cfg.maxSplits.None? ==> !Capped(cfg)
  {
  }

  lemma CellsAreFilled(cfg: Config, n: nat, combos: seq<seq<nat>>, preds: seq<seq<real>>, lists: seq<seq<seq<real>>>,
                       paths: array2<Option<real>>, g: nat, p: nat)
    requires cfg.Valid() && Complete(Blocks(n, cfg.nSplits), combos, preds)
    requires GroupLists(Blocks(n, cfg.nSplits), combos, preds, lists)
    requires g < cfg.nSplits && p < paths.Length0 && CellFilled(Blocks(n, cfg.nSplits), lists, paths, g, p)
    ensures Filled(cfg, n, combos, preds, paths, g, p)
  {
    SlicesFollowOccurrences(Blocks(n, cfg.nSplits), combos, preds, g);
  }

  method ReconstructPaths(cfg: Config, preds: seq<seq<real>>, n: nat)
    returns (paths: array2?<Option<real>>, error: Option<Error>, ghost combos: seq<seq<nat>>)
    requires cfg.Valid()
    ensures error == Some(ForwardChaining) <==> cfg.forwardChaining
    ensures !cfg.forwardChaining ==> Chosen(cfg, combos)
    ensures error == Some(FoldCount) <==> !cfg.forwardChaining && |preds| != |combos|
    ensures error.Some? && error.value.FoldLength? <==>
      !cfg.forwardChaining && |preds| == |combos| && !Complete(Blocks(n, cfg.nSplits), combos, preds)
    ensures error.Some? && error.value.FoldLength? ==>
      FirstMissized(Blocks(n, cfg.nSplits), combos, preds, error.value.fold)
    ensures error == Some(Unrepresented) <==>
      && !cfg.forwardChaining && |preds| == |combos| && Complete(Blocks(n, cfg.nSplits), combos, preds)
      && exists g :: 0 <= g < cfg.nSplits && |Occurrences(combos, g)| == 0
    ensures error.None? ==> paths != null && fresh(paths) && Reconstructed(cfg, n, combos, preds, paths)
    ensures error.Some? ==> paths == null
  {
    hide Reconstructed, Chosen, Complete, FirstMissized, Selection;
    paths, error, combos := null, None, [];
    if cfg.forwardChaining {
      error := Some(ForwardChaining);
      return;
    }
    var selected := GenerateTestCombinations(cfg);
    combos := selected;
    ChosenSelections(cfg, selected);
    if |preds| != |selected| {
      error := Some(FoldCount);
      return;
    }
    var blocks := PartitionGroups(n, cfg.nSplits);
    var bad := CheckLengths(cfg, blocks, selected, preds);
    if bad.Some? {
      error := Some(FoldLength(bad.value));
      return;
    }
    paths := Assemble(cfg, n, selected, preds);
    if paths == null {
      error := Some(Unrepresented);
    }
  }

  lemma {:induction false} ListLengths(blocks: seq<Block>, combos: seq<seq<nat>>, preds: seq<seq<real>>,
                                       lists: seq<seq<seq<real>>>)
    requires Complete(blocks, combos, preds) && GroupLists(blocks, combos, preds, lists)
    ensures forall g :: 0 <= g < |blocks| ==> |lists[g]| == |Occurrences(combos, g)|
    ensures forall g, p :: 0 <= g < |blocks| && 0 <= p < |lists[g]| ==> |lists[g][p]| == Size(blocks[g])
  {
    forall g | 0 <= g < |blocks|
      ensures |lists[g]| == |Occurrences(combos, g)|
      ensures forall p :: 0 <= p < |lists[g]| ==> |lists[g][p]| == Size(blocks[g])
    {
      SlicesFollowOccurrences(blocks, combos, preds, g);
    }
  }

  /** The number of paths: the smallest occurrence count, or the closed formula without a cap. */
  ghost function PathCount(cfg: Config, combos: seq<seq<nat>>): nat
    requires cfg.Valid()
  {
    if cfg.maxSplits.Some? then MinOccurrences(combos, cfg.nSplits)
    else Binomial(cfg.nSplits - 1, cfg.nTestSplits - 1)
  }

  ghost function MinOccurrences(combos: seq<seq<nat>>, groups: nat): nat
    requires groups > 0
  {
    var last := |Occurrences(combos, groups - 1)|;
    if groups == 1 then last else Least(MinOccurrences(combos, groups - 1), last)
  }

  lemma {:induction false} MinOccurrencesExact(combos: seq<seq<nat>>, groups: nat)
    requires groups > 0
    ensures forall g :: 0 <= g < groups ==> MinOccurrences(combos, groups) <= |Occurrences(combos, g)|
    ensures exists g :: 0 <= g < groups && MinOccurrences(combos, groups) == |Occurrences(combos, g)|
  {
    if groups == 1 {
      assert MinOccurrences(combos, groups) == |Occurrences(combos, 0)|;
    } else {
      MinOccurrencesExact(combos, groups - 1);
      if MinOccurrences(combos, groups) == |Occurrences(combos, groups - 1)| {
      } else {
        var g :| 0 <= g < groups - 1 && MinOccurrences(combos, groups - 1) == |Occurrences(combos, g)|;
        assert MinOccurrences(combos, groups) == |Occurrences(combos, g)|;
      }
    }
  }

  lemma {:induction false} MinOccurrencesIsMinLength(cfg: Config, combos: seq<seq<nat>>, lists: seq<seq<seq<real>>>)
    requires cfg.Valid() && |lists| == cfg.nSplits
    requires forall g :: 0 <= g < cfg.nSplits ==> |lists[g]| == |Occurrences(combos, g)|
    ensures MinLength(lists) == MinOccurrences(combos, cfg.nSplits)
  {
    MinLengthExact(lists);
    MinOccurrencesExact(combos, cfg.nSplits);
  }

  /** The prediction that ends up in path p for the samples of group g, read straight from
      the fold it was made in. */
  ghost predicate Filled(cfg: Config, n: nat, combos: seq<seq<nat>>, preds: seq<seq<real>>, paths: array2<Option<real>>,
                         g: nat, p: nat)
    requires cfg.Valid() && Complete(Blocks(n, cfg.nSplits), combos, preds) && g < cfg.nSplits && p < paths.Length0
    reads paths
  {
    var blocks := Blocks(n, cfg.nSplits);
    var o := Occurrences(combos, g);
    && p < |o| && o[p] < |combos| && g in combos[o[p]] && blocks[g].hi <= paths.Length1
    && forall x: nat :: blocks[g].lo <= x < blocks[g].hi ==>
         paths[p, x] == Some(Slice(blocks, combos[o[p]], preds[o[p]], g)[x - blocks[g].lo])
  }

  // ---- what reconstruction promises ----

  /** Without an effective cap every group is tested C(N-1, k-1) times, so both formulas for
      the number of paths agree. */
  lemma {:induction false} CountsAgree(cfg: Config, combos: seq<seq<nat>>)
    requires cfg.Valid() && !cfg.forwardChaining && Chosen(cfg, combos)
    ensures !Capped(cfg) ==> forall g :: 0 <= g < cfg.nSplits ==>
      |Occurrences(combos, g)| == Binomial(cfg.nSplits - 1, cfg.nTestSplits - 1)
    ensures !Capped(cfg) ==> MinOccurrences(combos, cfg.nSplits) == Binomial(cfg.nSplits - 1, cfg.nTestSplits - 1)
  {
    hide Binomial, Combinations, Occurrences, MinOccurrences, StrideIndex;
    forall g | 0 <= g < cfg.nSplits && !Capped(cfg)
      ensures |Occurrences(combos, g)| == Binomial(cfg.nSplits - 1, cfg.nTestSplits - 1)
    {
      OccurrenceCount(0, cfg.nSplits, cfg.nTestSplits, g);
    }
    MinOccurrencesExact(combos, cfg.nSplits);
  }

  /** The cap skips every combination that tests group g. */
  ghost predicate SkippedByCap(cfg: Config, g: nat)
    requires cfg.Valid() && Capped(cfg)
  {
    var all, m := AllCombinations(cfg), cfg.maxSplits.value;
    forall j :: 0 <= j < m && 0 <= StrideIndex(|all|, m, j) < |all| ==> g !in all[StrideIndex(|all|, m, j)]
  }

  /** A group is left untested exactly when the configuration caps the combinations and the
      cap skips every one of that group; without an effective cap none is. */
  lemma {:induction false} UntestedIffSkipped(cfg: Config, combos: seq<seq<nat>>, g: nat)
    requires cfg.Valid() && !cfg.forwardChaining && Chosen(cfg, combos) && g < cfg.nSplits
    ensures |Occurrences(combos, g)| == 0 <==> Capped(cfg) && SkippedByCap(cfg, g)
  {
    hide Combinations, Occurrences, StrideIndex, MinOccurrences, Binomial;
    OccurrencesExact(combos, g);
    CountsAgree(cfg, combos);
    BinomialPositive(cfg.nSplits - 1, cfg.nTestSplits - 1);
    var o := Occurrences(combos, g);
    if Capped(cfg) {
      var all := AllCombinations(cfg);
      if j :| 0 <= j < |combos| && g in all[StrideIndex(|all|, |combos|, j)] {
        assert g in combos[j] && j in o;
      }
      if o != [] {
        assert o[0] in o;
      }
    }
  }

  function Elements(c: seq<nat>): set<nat> { set g | g in c }

  /** The groups that some listed combination tests. */
  function Covered(combos: seq<seq<nat>>): set<nat> {
    if combos == [] then {} else Covered(combos[..|combos| - 1]) + Elements(combos[|combos| - 1])
  }

  lemma {:induction false} CoveredExact(combos: seq<seq<nat>>, f: nat, g: nat)
    requires f < |combos| && g in combos[f]
    ensures g in Covered(combos)
  {
    if f < |combos| - 1 {
      CoveredExact(combos[..|combos| - 1], f, g);
    }
  }

  lemma {:induction false} CoveredCount(combos: seq<seq<nat>>, k: nat)
    requires forall f :: 0 <= f < |combos| ==> |combos[f]| == k
    ensures |Covered(combos)| <= |combos| * k
  {
    hide Elements;
    if combos != [] {
      var n := |combos| - 1;
      CoveredCount(combos[..n], k);
      ElementsCount(combos[n]);
      UnionCount(Covered(combos[..n]), Elements(combos[n]));
      assert (n + 1) * k == n * k + k;
    }
  }

  lemma UnionCount(a: set<nat>, b: set<nat>)
    ensures |a + b| <= |a| + |b|
  {
    assert |a + b| + |a * b| == |a| + |b|;
  }

  lemma {:induction false} ElementsCount(c: seq<nat>)
    ensures |Elements(c)| <= |c|
  {
    if c != [] {
      var n := |c| - 1;
      ElementsCount(c[..n]);
      assert Elements(c) == Elements(c[..n]) + {c[n]};
    }
  }

  lemma {:induction false} GroupsCount(n: nat, s: set<nat>)
    requires forall g: nat :: g < n ==> g in s
    ensures |s| >= n
  {
    if n > 0 {
      GroupsCount(n - 1, s - {n - 1});
    }
  }

  /** A cap of fewer than N / k combinations always leaves a group untested, so that
      reconstruction must fail. */
  lemma SmallCapLeavesGroup(cfg: Config, combos: seq<seq<nat>>) returns (g: nat)
    requires cfg.Valid() && !cfg.forwardChaining && Chosen(cfg, combos) && Capped(cfg)
    requires cfg.maxSplits.value * cfg.nTestSplits < cfg.nSplits
    ensures g < cfg.nSplits && |Occurrences(combos, g)| == 0
  {
    hide Combinations, Occurrences, StrideIndex, Covered;
    ChosenSelections(cfg, combos);
    CoveredCount(combos, cfg.nTestSplits);
    if forall h: nat :: h < cfg.nSplits ==> h in Covered(combos) {
      GroupsCount(cfg.nSplits, Covered(combos));
      assert false;
    }
    g :| g < cfg.nSplits && g !in Covered(combos);
    OccurrencesExact(combos, g);
    var o := Occurrences(combos, g);
    if o != [] {
      CoveredExact(combos, o[0], g);
    }
  }

  /** Stitching is a bijection in uncapped runs: the slice of fold f for group g lands on
      exactly one path, and the path tells the fold back. */
  lemma StitchingIsBijective(cfg: Config, combos: seq<seq<nat>>, f: nat, g: nat) returns (p: nat)
    requires cfg.Valid() && !cfg.forwardChaining && Chosen(cfg, combos) && !Capped(cfg)
    requires f < |combos| && g in combos[f]
    ensures p < PathCount(cfg, combos) && p < |Occurrences(combos, g)| && Occurrences(combos, g)[p] == f
    ensures forall q :: 0 <= q < |Occurrences(combos, g)| && Occurrences(combos, g)[q] == f ==> q == p
    ensures forall q, h :: 0 <= q < |Occurrences(combos, g)| && Occurrences(combos, g)[q] == h ==>
      h < |combos| && g in combos[h]
  {
    ChosenSelections(cfg, combos);
    assert Selection(combos[f], 0, cfg.nSplits, cfg.nTestSplits);
    var j :| 0 <= j < |combos[f]| && combos[f][j] == g;
    OccurrencesExact(combos, g);
    CountsAgree(cfg, combos);
    var o := Occurrences(combos, g);
    assert f in o;
    p :| 0 <= p < |o| && o[p] == f;
  }

  /** Every cell of every returned path, capped or not, holds the prediction of a fold in
      which that very sample was tested; none is left empty. */
  lemma EveryCellFilled(cfg: Config, n: nat, combos: seq<seq<nat>>, preds: seq<seq<real>>, paths: array2<Option<real>>,
                        p: nat, x: nat) returns (g: nat, f: nat)
    requires cfg.Valid() && Reconstructed(cfg, n, combos, preds, paths)
    requires p < paths.Length0 && x < n
    ensures g < cfg.nSplits && Blocks(n, cfg.nSplits)[g].lo <= x < Blocks(n, cfg.nSplits)[g].hi
    ensures f < |combos| && g in combos[f]
    ensures paths[p, x] == Some(Slice(Blocks(n, cfg.nSplits), combos[f], preds[f], g)[x - Blocks(n, cfg.nSplits)[g].lo])
  {
    g := PartitionExact(n, cfg.nSplits, x);
    assert Filled(cfg, n, combos, preds, paths, g, p);
    f := Occurrences(combos, g)[p];
  }
}
