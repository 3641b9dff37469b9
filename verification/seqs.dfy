/** Sequence helpers shared by both batch jobs: order-preserving filtering,
    fixed-size batching (`xs[i:i + size] for i in range(0, len(xs), size)`)
    and turning a set into a list. */
module Seqs {

  /** The elements of `s` that satisfy `keep`, in their original order. */
  function Filter<T>(s: seq<T>, keep: T -> bool): (r: seq<T>)
    ensures |r| <= |s|
    ensures forall k :: 0 <= k < |r| ==> keep(r[k])
    decreases |s|
  {
    if |s| == 0 then []
    else
      var init, last := s[..|s| - 1], s[|s| - 1];
      Filter(init, keep) + (if keep(last) then [last] else [])
  }

  /** `Filter` keeps every occurrence of a kept value and no occurrence of any
      other value: it loses and invents nothing. */
  lemma {:induction false} FilterCounts<T>(s: seq<T>, keep: T -> bool)
    ensures forall x :: x in Filter(s, keep) ==> x in s
    ensures forall x :: x in s ==> multiset(Filter(s, keep))[x] == if keep(x) then multiset(s)[x] else 0
    decreases |s|
  {
    if |s| > 0 {
      var init, last := s[..|s| - 1], s[|s| - 1];
      FilterCounts(init, keep);
      assert s == init + [last];
      assert multiset(s) == multiset(init) + multiset{last};
    }
  }

  /** Extending the input by one element extends the filtered sequence by that
      element exactly when it is kept. */
  lemma FilterSnoc<T>(s: seq<T>, x: T, keep: T -> bool)
    ensures Filter(s + [x], keep) == Filter(s, keep) + (if keep(x) then [x] else [])
  {
    assert (s + [x])[..|s|] == s;
  }

  /** The positions in `s` from which `Filter(s, keep)` takes its elements. */
  function FilterIndices<T>(s: seq<T>, keep: T -> bool): (idx: seq<nat>)
    ensures forall k :: 0 <= k < |idx| ==> idx[k] < |s|
    decreases |s|
  {
    if |s| == 0 then []
    else
      var n := |s| - 1;
      FilterIndices(s[..n], keep) + (if keep(s[n]) then [n] else [])
  }

  /** The k-th element of `Filter(s, keep)` is the element of `s` at the k-th
      selected position. */
  lemma {:induction false} FilterTakesFromIndices<T>(s: seq<T>, keep: T -> bool)
    ensures var idx := FilterIndices(s, keep);
      && |idx| == |Filter(s, keep)|
      && forall k :: 0 <= k < |idx| ==> s[idx[k]] == Filter(s, keep)[k]
    decreases |s|
  {
    if |s| > 0 {
      var n := |s| - 1;
      var init := s[..n];
      FilterTakesFromIndices(init, keep);
      var prev := FilterIndices(init, keep);
      var idx := FilterIndices(s, keep);
      forall k | 0 <= k < |idx|
        ensures s[idx[k]] == Filter(s, keep)[k]
      {
        if k < |prev| {
          assert idx[k] == prev[k];
          assert s[prev[k]] == init[prev[k]];
        }
      }
    }
  }

  predicate StrictlyIncreasing(xs: seq<int>) {
    forall k, l :: 0 <= k < l < |xs| ==> xs[k] < xs[l]
  }

  /** The selected positions strictly increase: `Filter` keeps the input order. */
  lemma {:induction false} FilterIndicesIncrease<T>(s: seq<T>, keep: T -> bool)
    ensures StrictlyIncreasing(FilterIndices(s, keep))
    decreases |s|
  {
    if |s| > 0 {
      var n := |s| - 1;
      FilterIndicesIncrease(s[..n], keep);
      var prev := FilterIndices(s[..n], keep);
      var idx := FilterIndices(s, keep);
      assert idx == prev + (if keep(s[n]) then [n] else []);
      forall k, l | 0 <= k < l < |idx|
        ensures idx[k] < idx[l]
      {
        assert idx[k] == prev[k] && prev[k] < n;
        if l < |prev| {
          assert idx[l] == prev[l];
          assert prev[k] < prev[l];
        } else {
          assert idx[l] == n;
        }
      }
    }
  }

  /** The selected positions are exactly those whose element is kept, so
      `Filter` drops nothing that satisfies `keep`. */
  lemma {:induction false} FilterIndicesCover<T>(s: seq<T>, keep: T -> bool)
    ensures var idx := FilterIndices(s, keep);
      forall j :: 0 <= j < |s| ==> (j in idx <==> keep(s[j]))
    decreases |s|
  {
    if |s| > 0 {
      var n := |s| - 1;
      var init := s[..n];
      FilterIndicesCover(init, keep);
      var prev := FilterIndices(init, keep);
      var idx := FilterIndices(s, keep);
      assert idx == prev + (if keep(s[n]) then [n] else []);
      forall j | 0 <= j < |s|
        ensures j in idx <==> keep(s[j])
      {
        if j < n {
          assert init[j] == s[j];
          assert j !in (if keep(s[n]) then [n] else []);
          assert j in idx <==> j in prev;
        }
      }
    }
  }

  /** In-order concatenation of a sequence of batches. */
  function Flatten<T>(bs: seq<seq<T>>): seq<T>
    decreases |bs|
  {
    if |bs| == 0 then [] else Flatten(bs[..|bs| - 1]) + bs[|bs| - 1]
  }

  /** Splits `xs` into consecutive batches of `size` elements, the last one
      possibly shorter, as Python's slicing loop over `range(0, len(xs), size)`. */
  method Batches<T>(xs: seq<T>, size: nat) returns (bs: seq<seq<T>>)
    requires size > 0
    ensures Flatten(bs) == xs
    ensures forall b :: b in bs ==> 0 < |b| <= size
    ensures forall k :: 0 <= k < |bs| - 1 ==> |bs[k]| == size
    ensures bs == [] <==> xs == []
  {
    bs := [];
    var i := 0;
    while i < |xs|
      invariant 0 <= i <= |xs|
      invariant Flatten(bs) == xs[..i]
      invariant forall b :: b in bs ==> 0 < |b| <= size
      invariant forall k :: 0 <= k < |bs| - 1 ==> |bs[k]| == size
      invariant i < |xs| ==> forall k :: 0 <= k < |bs| ==> |bs[k]| == size
      invariant bs == [] <==> i == 0
    {
      var j := if i + size <= |xs| then i + size else |xs|;
      var batch := xs[i..j];
      assert (bs + [batch])[..|bs|] == bs;
      assert xs[..j] == xs[..i] + batch;
      bs := bs + [batch];
      i := j;
    }
    assert xs[..i] == xs;
  }

  /** Lists the elements of a set, each exactly once, in an arbitrary order
      (Python's `list(a_set)`, whose order is the set's iteration order). */
  method SetToSeq<T>(s: set<T>) returns (xs: seq<T>)
    ensures multiset(xs) == multiset(s)
  {
    xs := [];
    var rest := s;
    while rest != {}
      invariant rest <= s
      invariant multiset(xs) + multiset(rest) == multiset(s)
      decreases |rest|
    {
      var x :| x in rest;
      assert multiset(rest) == multiset(rest - {x}) + multiset{x};
      xs := xs + [x];
      rest := rest - {x};
    }
  }
}
