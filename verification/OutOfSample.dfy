/** Splitting and stitching together: the predictions that models make for the test samples of
    their folds come back as paths in which every cell is the prediction for its own sample, by
    a fold that did not train on it. */
module OutOfSample {
  import opened Results
  import opened Combinatorics
  import opened Partition
  import opened PurgedSplits
  import opened PathReconstruction

  /** Fold f predicts value(f, x) for each of its test samples x, in the order it lists them. */
  ghost predicate Predicted(folds: seq<PurgedSplit>, value: (nat, nat) -> real, preds: seq<seq<real>>) {
    && |preds| == |folds|
    && forall f :: 0 <= f < |folds| ==>
         |preds[f]| == |folds[f].test| && forall q :: 0 <= q < |preds[f]| ==> preds[f][q] == value(f, folds[f].test[q])
  }

  lemma {:induction false} IncreasingUnique(a: seq<nat>, b: seq<nat>)
    requires Increasing(a) && Increasing(b) && forall x: nat :: x in a <==> x in b
    ensures a == b
  {
    assert a != [] ==> a[0] in a;
    assert b != [] ==> b[0] in b;
    if a != [] && b != [] {
      var m, n := |a| - 1, |b| - 1;
      assert a[m] in b && b[n] in a;
      assert a[m] == b[n];
      forall x: nat ensures x in a[..m] <==> x in b[..n] {
        if x in a[..m] {
          var i :| 0 <= i < m && a[i] == x;
          assert x in a && x != a[m];
        }
        if x in b[..n] {
          var i :| 0 <= i < n && b[i] == x;
          assert x in b && x != b[n];
        }
      }
      IncreasingUnique(a[..m], b[..n]);
    }
  }

  /** The listed groups one after the other: group j begins at its offset. */
  lemma {:induction false} MembersAt(blocks: seq<Block>, combo: seq<nat>, j: nat, d: nat)
    requires Fits(blocks, combo)
    ensures |Members(blocks, combo)| == Offset(blocks, combo, |combo|)
    ensures j < |combo| && d < Size(blocks[combo[j]]) ==>
      var at := Offset(blocks, combo, j) + d;
      at < |Members(blocks, combo)| && Members(blocks, combo)[at] == blocks[combo[j]].lo + d
  {
    if combo != [] {
      var n := |combo| - 1;
      MembersAt(blocks, combo[..n], j, d);
      OffsetPrefix(blocks, combo, n);
      if j < n {
        OffsetPrefix(blocks, combo, j);
      }
    }
  }

  lemma {:induction false} OffsetPrefix(blocks: seq<Block>, combo: seq<nat>, j: nat)
    requires Fits(blocks, combo) && j < |combo|
    ensures Offset(blocks, combo[..|combo| - 1], j) == Offset(blocks, combo, j)
  {
    if j > 0 {
      OffsetPrefix(blocks, combo, j - 1);
    }
  }

  lemma OffsetStep(blocks: seq<Block>, combo: seq<nat>, j: nat)
    requires Fits(blocks, combo) && j < |combo|
    ensures Offset(blocks, combo, j + 1) == Offset(blocks, combo, j) + Size(blocks[combo[j]])
  {
  }

  /** A fold lists its test samples group by group. */
  lemma {:induction false} TestIsMembers(cfg: Config, n: nat, t: Times, embargo: real, combo: seq<nat>, s: PurgedSplit)
    requires cfg.Valid() && Selection(combo, 0, cfg.nSplits, cfg.nTestSplits) && FoldOf(cfg, n, t, embargo, combo, s)
    ensures s.test == Members(Blocks(n, cfg.nSplits), combo)
  {
    hide Purged, Embargoed;
    CutEnds(n, cfg.nSplits);
    forall g | 0 <= g < cfg.nSplits ensures Blocks(n, cfg.nSplits)[g].hi <= n {
      CutMonotone(n, cfg.nSplits, g + 1, cfg.nSplits);
    }
    MembersFacts(cfg, n, t, combo);
    IncreasingUnique(s.test, Members(Blocks(n, cfg.nSplits), combo));
  }

  /** Predictions made for the folds of a split always have the lengths reconstruction asks
      for. */
  lemma PredictionsFit(cfg: Config, n: nat, t: Times, embargo: real, combos: seq<seq<nat>>, folds: seq<PurgedSplit>,
                       value: (nat, nat) -> real, preds: seq<seq<real>>)
    requires cfg.Valid() && Chosen(cfg, combos) && AllFolds(cfg, n, t, embargo, combos, folds)
    requires |folds| == |combos| && Predicted(folds, value, preds)
    ensures Complete(Blocks(n, cfg.nSplits), combos, preds)
  {
    hide FoldOf, Chosen, Blocks, Members, Offset;
    ChosenSelections(cfg, combos);
    forall f | 0 <= f < |combos|
      ensures Fits(Blocks(n, cfg.nSplits), combos[f]) && Increasing(combos[f])
      ensures |preds[f]| == Offset(Blocks(n, cfg.nSplits), combos[f], |combos[f]|)
    {
      TestIsMembers(cfg, n, t, embargo, combos[f], folds[f]);
      MembersAt(Blocks(n, cfg.nSplits), combos[f], 0, 0);
    }
  }

  /** The slice of a fold for group g holds the predictions for the samples of that group. */
  lemma SliceHolds(cfg: Config, n: nat, t: Times, embargo: real, combos: seq<seq<nat>>, folds: seq<PurgedSplit>,
                   value: (nat, nat) -> real, preds: seq<seq<real>>, f: nat, g: nat, x: nat)
    requires cfg.Valid() && Chosen(cfg, combos) && AllFolds(cfg, n, t, embargo, combos, folds)
    requires |folds| == |combos| && Predicted(folds, value, preds)
    requires Complete(Blocks(n, cfg.nSplits), combos, preds)
    requires f < |combos| && g in combos[f] && g < cfg.nSplits
    requires Blocks(n, cfg.nSplits)[g].lo <= x < Blocks(n, cfg.nSplits)[g].hi
    ensures x in folds[f].test
    ensures Slice(Blocks(n, cfg.nSplits), combos[f], preds[f], g)[x - Blocks(n, cfg.nSplits)[g].lo] == value(f, x)
  {
    hide FoldOf, Chosen, Blocks, Members, Offset;
    ChosenSelections(cfg, combos);
    TestIsMembers(cfg, n, t, embargo, combos[f], folds[f]);
    var b := Blocks(n, cfg.nSplits);
    var j := Position(combos[f], g);
    MembersAt(b, combos[f], j, x - b[g].lo);
    OffsetMonotone(b, combos[f], j + 1, |combos[f]|);
    var at := Offset(b, combos[f], j) + (x - b[g].lo);
    assert Offset(b, combos[f], j + 1) == Offset(b, combos[f], j) + Size(b[g]) by { OffsetStep(b, combos[f], j); }
    assert folds[f].test[at] == x && preds[f][at] == value(f, folds[f].test[at]);
  }

  /** Every cell of every path is the prediction for that very sample, by the fold the path
      takes its group from, which tested the sample and did not train on it. */
  lemma PathsAreOutOfSample(cfg: Config, n: nat, t: Times, embargo: real, combos: seq<seq<nat>>,
                            folds: seq<PurgedSplit>, value: (nat, nat) -> real, preds: seq<seq<real>>,
                            paths: array2<Option<real>>, p: nat, x: nat)
    returns (g: nat, f: nat)
    requires cfg.Valid() && t.Valid(n) && Chosen(cfg, combos) && AllFolds(cfg, n, t, embargo, combos, folds)
    requires |folds| == |combos| && Predicted(folds, value, preds)
    requires Reconstructed(cfg, n, combos, preds, paths) && p < paths.Length0 && x < n
    ensures f < |folds| && x in folds[f].test && x !in folds[f].train
    ensures paths[p, x] == Some(value(f, x))
    ensures g in combos[f] && p < |Occurrences(combos, g)| && Occurrences(combos, g)[p] == f
  {
    hide FoldOf, Chosen, Blocks, Slice, Occurrences, Complete;
    ChosenSelections(cfg, combos);
    g := PartitionExact(n, cfg.nSplits, x);
    assert Filled(cfg, n, combos, preds, paths, g, p);
    f := Occurrences(combos, g)[p];
    SliceHolds(cfg, n, t, embargo, combos, folds, value, preds, f, g, x);
    FoldComplete(cfg, n, t, embargo, combos[f], folds[f], x);
  }
}
