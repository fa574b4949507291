/** Index permutations and the sorting calls of the Python source (sorted, argsort):
    only a permutation that puts the keys in order is promised, never how ties fall. */
module Sorting {
  import opened Vectors

  function Iota(n: nat): (r: seq<nat>)
    ensures |r| == n && forall i :: 0 <= i < n ==> r[i] == i
  {
    seq(n, i requires 0 <= i < n => i)
  }

  ghost predicate IsPermutation(p: seq<nat>, n: nat) { multiset(p) == multiset(Iota(n)) }

  ghost predicate Indexes(p: seq<nat>, n: nat) { forall k :: 0 <= k < |p| ==> p[k] < n }

  function Gather<T>(x: seq<T>, p: seq<nat>): (r: seq<T>)
    requires forall k :: 0 <= k < |p| ==> p[k] < |x|
    ensures |r| == |p| && forall k :: 0 <= k < |p| ==> r[k] == x[p[k]]
  {
    seq(|p|, k requires 0 <= k < |p| => x[p[k]])
  }

  ghost predicate Descending(x: seq<real>) { forall i, j :: 0 <= i <= j < |x| ==> x[i] >= x[j] }

  lemma PermutationIndexes(p: seq<nat>, n: nat)
    requires IsPermutation(p, n)
    ensures |p| == n && Indexes(p, n)
    ensures forall i :: 0 <= i < n ==> i in p
    ensures forall j, k :: 0 <= j < k < n ==> p[j] != p[k]
  {
    assert |multiset(p)| == |multiset(Iota(n))|;
    forall k | 0 <= k < |p| ensures p[k] < n {
      assert p[k] in multiset(p);
      assert p[k] in Iota(n);
    }
    forall i | 0 <= i < n ensures i in p {
      assert Iota(n)[i] in multiset(p);
    }
    forall j, k | 0 <= j < k < n ensures p[j] != p[k] {
      IotaDistinct(n, p[j]);
      RepeatedEntry(p, j, k);
    }
  }

  lemma RepeatedEntry(p: seq<nat>, j: nat, k: nat)
    requires j < k < |p|
    ensures p[j] == p[k] ==> multiset(p)[p[j]] >= 2
  {
    assert p == (p[..j] + [p[j]] + p[j + 1..k]) + ([p[k]] + p[k + 1..]);
  }

  lemma IotaNext(n: nat)
    ensures multiset(Iota(n + 1)) == multiset(Iota(n)) + multiset{n}
  {
    assert Iota(n + 1) == Iota(n) + [n];
  }

  lemma {:induction false} IotaDistinct(n: nat, v: nat)
    ensures multiset(Iota(n))[v] <= 1
    ensures v >= n ==> multiset(Iota(n))[v] == 0
  {
    if n != 0 {
      IotaDistinct(n - 1, v);
      IotaNext(n - 1);
    }
  }

  function Without<T>(q: seq<T>, k: nat): seq<T>
    requires k < |q|
  {
    q[..k] + q[k + 1..]
  }

  function Inserted<T>(q: seq<T>, k: nat, v: T): seq<T>
    requires k <= |q|
  {
    q[..k] + [v] + q[k..]
  }

  lemma MultisetWithout<T>(q: seq<T>, k: nat)
    requires k < |q|
    ensures multiset(q) == multiset(Without(q, k)) + multiset{q[k]}
  {
    assert q == q[..k] + [q[k]] + q[k + 1..];
  }

  lemma MultisetInserted<T>(q: seq<T>, k: nat, v: T)
    requires k <= |q|
    ensures multiset(Inserted(q, k, v)) == multiset(q) + multiset{v}
  {
    assert q == q[..k] + q[k..];
  }

  lemma MultisetCancel<T>(a: multiset<T>, b: multiset<T>, v: T)
    requires a + multiset{v} == b + multiset{v}
    ensures a == b
  {
    assert a == (a + multiset{v}) - multiset{v};
    assert b == (b + multiset{v}) - multiset{v};
  }

  lemma {:induction false} SumWithout(x: seq<real>, k: nat)
    requires k < |x|
    ensures Sum(x) == Sum(Without(x, k)) + x[k]
  {
    SumConcat(x[..k], x[k + 1..]);
    SumConcat(x[..k] + [x[k]], x[k + 1..]);
    SumConcat(x[..k], [x[k]]);
    SumSingle(x[k]);
    assert x == x[..k] + [x[k]] + x[k + 1..];
  }

  lemma {:induction false} SumSameMultiset(x: seq<real>, y: seq<real>)
    requires multiset(x) == multiset(y)
    ensures Sum(x) == Sum(y)
    decreases |x|
  {
    if x == [] {
      assert |multiset(y)| == 0;
    } else {
      var n := |x| - 1;
      assert x[n] in multiset(x);
      assert x[n] in y;
      var k :| 0 <= k < |y| && y[k] == x[n];
      MultisetWithout(x, n);
      MultisetWithout(y, k);
      MultisetCancel(multiset(Without(x, n)), multiset(Without(y, k)), x[n]);
      SumWithout(x, n);
      SumWithout(y, k);
      SumSameMultiset(Without(x, n), Without(y, k));
    }
  }

  lemma GatherWithout<T>(x: seq<T>, p: seq<nat>, k: nat)
    requires Indexes(p, |x|) && k < |p|
    ensures Indexes(Without(p, k), |x|) && |Without(p, k)| < |p|
    ensures Gather(x, Without(p, k)) == Without(Gather(x, p), k)
  {
  }

  lemma {:induction false} GatherSameMultiset<T>(x: seq<T>, p: seq<nat>, q: seq<nat>)
    requires Indexes(p, |x|) && Indexes(q, |x|) && multiset(p) == multiset(q)
    ensures multiset(Gather(x, p)) == multiset(Gather(x, q))
    decreases |p|
  {
    hide Gather, Without;
    if p == [] {
      assert |multiset(q)| == 0;
    } else {
      var n := |p| - 1;
      assert p[n] in multiset(p);
      assert p[n] in q;
      var k :| 0 <= k < |q| && q[k] == p[n];
      MultisetWithout(p, n);
      MultisetWithout(q, k);
      MultisetCancel(multiset(Without(p, n)), multiset(Without(q, k)), p[n]);
      GatherWithout(x, p, n);
      GatherWithout(x, q, k);
      GatherSameMultiset(x, Without(p, n), Without(q, k));
      MultisetWithout(Gather(x, p), n);
      MultisetWithout(Gather(x, q), k);
    }
  }

  lemma GatherPermuted<T>(x: seq<T>, p: seq<nat>)
    requires IsPermutation(p, |x|)
    ensures Indexes(p, |x|) && multiset(Gather(x, p)) == multiset(x)
  {
    PermutationIndexes(p, |x|);
    GatherSameMultiset(x, p, Iota(|x|));
    assert Gather(x, Iota(|x|)) == x;
  }

  /** A sum does not depend on the order of its terms. */
  lemma {:induction false} SumPermuted(x: seq<real>, p: seq<nat>)
    requires IsPermutation(p, |x|)
    ensures Indexes(p, |x|) && Sum(Gather(x, p)) == Sum(x)
  {
    GatherPermuted(x, p);
    SumSameMultiset(Gather(x, p), x);
  }

  /** p lists the first n indexes in descending order of their keys. */
  ghost predicate Listing(keys: seq<real>, p: seq<nat>, n: nat) {
    && n <= |keys| && |p| == n && IsPermutation(p, n)
    && Indexes(p, |keys|) && Descending(Gather(keys, p))
  }

  /** A permutation of the indexes that lists the keys from largest to smallest. */
  method ArgSortDescending(keys: seq<real>) returns (p: seq<nat>)
    ensures IsPermutation(p, |keys|)
    ensures Indexes(p, |keys|) && Descending(Gather(keys, p))
  {
    hide IsPermutation, Descending, Iota, Inserted, Gather;
    p := [];
    ListingEmpty(keys);
    for i := 0 to |keys|
      invariant Listing(keys, p, i)
    {
      var j := 0;
      while j < |p| && keys[p[j]] > keys[i]
        invariant 0 <= j <= |p|
        invariant forall k :: 0 <= k < j ==> keys[p[k]] > keys[i]
      {
        j := j + 1;
      }
      ListingInserted(keys, p, i, j);
      p := p[..j] + [i] + p[j..];
    }
  }

  ghost predicate Ascending(x: seq<real>) { forall i, j :: 0 <= i <= j < |x| ==> x[i] <= x[j] }

  /** A permutation of the indexes that lists the keys from smallest to largest. */
  method ArgSortAscending(keys: seq<real>) returns (p: seq<nat>)
    ensures IsPermutation(p, |keys|)
    ensures Indexes(p, |keys|) && Ascending(Gather(keys, p))
  {
    var negated := seq(|keys|, i requires 0 <= i < |keys| => -keys[i]);
    p := ArgSortDescending(negated);
    forall i, j | 0 <= i <= j < |p| ensures Gather(keys, p)[i] <= Gather(keys, p)[j] {
      assert Gather(negated, p)[i] >= Gather(negated, p)[j];
    }
  }

  lemma ListingEmpty(keys: seq<real>)
    ensures Listing(keys, [], 0)
  {
  }

  lemma ListingInserted(keys: seq<real>, p: seq<nat>, i: nat, j: nat)
    requires i < |keys| && Listing(keys, p, i) && j <= |p|
    requires forall k :: 0 <= k < j ==> keys[p[k]] > keys[i]
    requires j < |p| ==> keys[p[j]] <= keys[i]
    ensures Listing(keys, p[..j] + [i] + p[j..], i + 1)
  {
    InsertKeepsOrder(keys, p, i, j);
    MultisetInserted<nat>(p, j, i);
    IotaNext(i);
  }

  lemma InsertKeepsOrder(keys: seq<real>, p: seq<nat>, i: nat, j: nat)
    requires Indexes(p, |keys|) && i < |keys| && j <= |p|
    requires Descending(Gather(keys, p))
    requires forall k :: 0 <= k < j ==> keys[p[k]] > keys[i]
    requires j < |p| ==> keys[p[j]] <= keys[i]
    ensures Indexes(Inserted(p, j, i), |keys|)
    ensures Descending(Gather(keys, Inserted(p, j, i)))
  {
    var q := Inserted(p, j, i);
    forall k | 0 <= k < |q| ensures q[k] < |keys| {
      if k < j {
        assert q[k] == p[k];
      } else if k > j {
        assert q[k] == p[k - 1];
      }
    }
    var before, after := Gather(keys, p), Gather(keys, q);
    assert after == Inserted(before, j, keys[i]);
    forall a, b | 0 <= a <= b < |after| ensures after[a] >= after[b] {
      if b < j {
        assert after[a] == before[a] && after[b] == before[b];
      } else if a > j {
        assert after[a] == before[a - 1] && after[b] == before[b - 1];
      } else if b > j {
        assert after[b] == before[b - 1] && before[j] >= before[b - 1];
      }
    }
  }
}
