/** Order-preserving sequence helpers shared by the detector, the scorer and the advice text. */
module Seqs {

  /** The elements of xs that satisfy keep, in their original order
      (the shape of a Python loop that appends the elements it keeps). */
  function Filter<T(!new)>(xs: seq<T>, keep: T -> bool): (r: seq<T>)
    ensures |r| <= |xs|
    ensures forall x :: x in r <==> x in xs && keep(x)
  {
    if xs == [] then []
    else
      var init := Filter(xs[..|xs| - 1], keep);
      assert forall x :: x in xs <==> x in xs[..|xs| - 1] || x == xs[|xs| - 1];
      if keep(xs[|xs| - 1]) then init + [xs[|xs| - 1]] else init
  }

  /** f applied to every element of xs, in order. */
  function Map<T, U>(xs: seq<T>, f: T -> U): (r: seq<U>)
    ensures |r| == |xs|
    ensures forall i :: 0 <= i < |xs| ==> r[i] == f(xs[i])
  {
    seq(|xs|, i requires 0 <= i < |xs| => f(xs[i]))
  }

  /** a can be obtained from b by deleting elements: a keeps b's order. */
  predicate IsSubsequence<T(==)>(a: seq<T>, b: seq<T>)
    decreases |b|
  {
    a == [] ||
    (b != [] &&
     ((a[|a| - 1] == b[|b| - 1] && IsSubsequence(a[..|a| - 1], b[..|b| - 1])) ||
      IsSubsequence(a, b[..|b| - 1])))
  }

  predicate NoDuplicates<T(==)>(xs: seq<T>) {
    forall i, j :: 0 <= i < j < |xs| ==> xs[i] != xs[j]
  }

  /** Filtering one more element at the end extends the filtered prefix. */
  lemma FilterSnoc<T(!new)>(xs: seq<T>, x: T, keep: T -> bool)
    ensures Filter(xs + [x], keep) == Filter(xs, keep) + (if keep(x) then [x] else [])
  {
    assert (xs + [x])[..|xs|] == xs;
  }

  lemma MapSnoc<T, U>(xs: seq<T>, x: T, f: T -> U)
    ensures Map(xs + [x], f) == Map(xs, f) + [f(x)]
  {
  }

  /** The kept and the dropped elements together account for every element. */
  lemma {:induction false} FilterSplitCount<T(!new)>(xs: seq<T>, keep: T -> bool, drop: T -> bool)
    requires forall x :: drop(x) == !keep(x)
    ensures |Filter(xs, keep)| + |Filter(xs, drop)| == |xs|
    decreases |xs|
  {
    if xs != [] {
      FilterSplitCount(xs[..|xs| - 1], keep, drop);
    }
  }

  /** Filtering a concatenation filters each part. */
  lemma {:induction false} FilterAppend<T(!new)>(xs: seq<T>, ys: seq<T>, keep: T -> bool)
    ensures Filter(xs + ys, keep) == Filter(xs, keep) + Filter(ys, keep)
    decreases |ys|
  {
    if ys != [] {
      var init, last := ys[..|ys| - 1], ys[|ys| - 1];
      FilterAppend(xs, init, keep);
      assert xs + ys == (xs + init) + [last];
      assert ys == init + [last];
      FilterSnoc(xs + init, last, keep);
      FilterSnoc(init, last, keep);
    } else {
      assert xs + ys == xs;
    }
  }

  /** A weaker test keeps at least as many elements. */
  lemma {:induction false} FilterWeakerKeepsMore<T(!new)>(xs: seq<T>, strong: T -> bool, weak: T -> bool)
    requires forall x :: x in xs && strong(x) ==> weak(x)
    ensures |Filter(xs, strong)| <= |Filter(xs, weak)|
    decreases |xs|
  {
    if xs != [] {
      FilterWeakerKeepsMore(xs[..|xs| - 1], strong, weak);
    }
  }

  /** Filtering keeps the original order. */
  lemma {:induction false} FilterIsSubsequence<T(!new)>(xs: seq<T>, keep: T -> bool)
    ensures IsSubsequence(Filter(xs, keep), xs)
    decreases |xs|
  {
    if xs != [] {
      var init := xs[..|xs| - 1];
      FilterIsSubsequence(init, keep);
      var r := Filter(xs, keep);
      if keep(xs[|xs| - 1]) {
        assert r[..|r| - 1] == Filter(init, keep);
      }
    }
  }

  /** Filtering a sequence without repetitions gives one without repetitions. */
  lemma {:induction false} FilterNoDuplicates<T(!new)>(xs: seq<T>, keep: T -> bool)
    requires NoDuplicates(xs)
    ensures NoDuplicates(Filter(xs, keep))
    decreases |xs|
  {
    if xs != [] {
      var init := xs[..|xs| - 1];
      FilterNoDuplicates(init, keep);
      var last := xs[|xs| - 1];
      if keep(last) {
        assert last !in init;
        assert last !in Filter(init, keep);
      }
    }
  }

  /** Keeping everything gives back the input. */
  lemma {:induction false} FilterAll<T(!new)>(xs: seq<T>, keep: T -> bool)
    requires forall x :: x in xs ==> keep(x)
    ensures Filter(xs, keep) == xs
    decreases |xs|
  {
    if xs != [] {
      FilterAll(xs[..|xs| - 1], keep);
      assert xs[..|xs| - 1] + [xs[|xs| - 1]] == xs;
    }
  }

  /** Keeping nothing gives the empty sequence. */
  lemma FilterNone<T(!new)>(xs: seq<T>, keep: T -> bool)
    requires forall x :: x in xs ==> !keep(x)
    ensures Filter(xs, keep) == []
  {
    if Filter(xs, keep) != [] {
      assert Filter(xs, keep)[0] in Filter(xs, keep);
    }
  }

  /** Mapping keeps a subsequence a subsequence. */
  lemma {:induction false} MapKeepsSubsequence<T, U>(a: seq<T>, b: seq<T>, f: T -> U)
    requires IsSubsequence(a, b)
    ensures IsSubsequence(Map(a, f), Map(b, f))
    decreases |b|
  {
    if a != [] {
      assert Map(b, f)[..|b| - 1] == Map(b[..|b| - 1], f);
      if a[|a| - 1] == b[|b| - 1] && IsSubsequence(a[..|a| - 1], b[..|b| - 1]) {
        MapKeepsSubsequence(a[..|a| - 1], b[..|b| - 1], f);
        assert Map(a, f)[..|a| - 1] == Map(a[..|a| - 1], f);
      } else {
        MapKeepsSubsequence(a, b[..|b| - 1], f);
      }
    }
  }
}
