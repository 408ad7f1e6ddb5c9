/** Sequence helpers for the list comprehensions and filtering loops of the source. */
module Seqs {
  import opened Wrappers

  /** `[x for x in xs if p(x)]`, defined from the end so that a loop over a growing prefix
      extends it by one element at a time. */
  function Filter<T>(xs: seq<T>, p: T -> bool): (r: seq<T>)
    ensures |r| <= |xs|
    ensures forall x :: x in r ==> x in xs && p(x)
  {
    if |xs| == 0 then []
    else Filter(xs[..|xs| - 1], p) + (if p(xs[|xs| - 1]) then [xs[|xs| - 1]] else [])
  }

  /** An element is kept exactly when it is in the list and satisfies the predicate. */
  lemma {:induction false} FilterMembers<T>(xs: seq<T>, p: T -> bool, x: T)
    ensures x in Filter(xs, p) <==> x in xs && p(x)
  {
    if |xs| > 0 {
      var init := xs[..|xs| - 1];
      FilterMembers(init, p, x);
      assert xs == init + [xs[|xs| - 1]];
    }
  }

  /** A list whose every element satisfies the predicate is kept whole. */
  lemma {:induction false} FilterKeepsAll<T>(xs: seq<T>, p: T -> bool)
    requires forall x :: x in xs ==> p(x)
    ensures Filter(xs, p) == xs
  {
    if |xs| > 0 {
      var init := xs[..|xs| - 1];
      FilterKeepsAll(init, p);
      assert xs == init + [xs[|xs| - 1]];
    }
  }

  /** Filtering a prefix one element longer. */
  lemma FilterSnoc<T>(xs: seq<T>, p: T -> bool, i: nat)
    requires i < |xs|
    ensures Filter(xs[..i + 1], p) == Filter(xs[..i], p) + (if p(xs[i]) then [xs[i]] else [])
  {
    assert xs[..i + 1][..i] == xs[..i];
  }

  /** Filtering an increasing list of positions keeps it increasing. */
  lemma {:induction false} FilterIncreasing(xs: seq<nat>, p: nat -> bool)
    requires forall a, b :: 0 <= a < b < |xs| ==> xs[a] < xs[b]
    ensures forall a, b :: 0 <= a < b < |Filter(xs, p)| ==> Filter(xs, p)[a] < Filter(xs, p)[b]
  {
    if |xs| > 0 {
      var init := xs[..|xs| - 1];
      FilterIncreasing(init, p);
      var r0 := Filter(init, p);
      forall a | 0 <= a < |r0|
        ensures r0[a] < xs[|xs| - 1]
      {
        assert r0[a] in init;
      }
    }
  }

  /** The positions of the elements `Filter` keeps, in increasing order. */
  function KeptIndices<T>(xs: seq<T>, p: T -> bool): (f: seq<nat>)
    ensures forall k :: 0 <= k < |f| ==> f[k] < |xs| && p(xs[f[k]])
    ensures forall i :: 0 <= i < |xs| && p(xs[i]) ==> i in f
    ensures forall a, b :: 0 <= a < b < |f| ==> f[a] < f[b]
  {
    if |xs| == 0 then []
    else
      var n := |xs| - 1;
      var init := KeptIndices(xs[..n], p);
      assert forall i :: 0 <= i < n ==> xs[..n][i] == xs[i];
      init + (if p(xs[n]) then [n] else [])
  }

  /** `Filter` keeps the order of the list: its k-th element is the element at the k-th kept
      position. */
  lemma {:induction false} FilterInOrder<T>(xs: seq<T>, p: T -> bool)
    ensures |Filter(xs, p)| == |KeptIndices(xs, p)|
    ensures forall k :: 0 <= k < |Filter(xs, p)| ==> Filter(xs, p)[k] == xs[KeptIndices(xs, p)[k]]
  {
    if |xs| > 0 {
      var n := |xs| - 1;
      FilterInOrder(xs[..n], p);
      assert forall i :: 0 <= i < n ==> xs[..n][i] == xs[i];
    }
  }

  /** A list that satisfies the predicate everywhere is kept whole. */
  lemma {:induction false} FilterAll<T>(xs: seq<T>, p: T -> bool)
    requires forall k :: 0 <= k < |xs| ==> p(xs[k])
    ensures Filter(xs, p) == xs
  {
    if |xs| > 0 {
      FilterAll(xs[..|xs| - 1], p);
      assert xs == xs[..|xs| - 1] + [xs[|xs| - 1]];
    }
  }

  /** A filter whose test can raise: the first exception, in list order, aborts it. */
  function FilterOrFail<T>(xs: seq<T>, p: T -> Result<bool>): (r: Result<seq<T>>)
    ensures r.Ok? ==> |r.value| <= |xs|
  {
    if |xs| == 0 then Ok([])
    else
      match FilterOrFail(xs[..|xs| - 1], p)
      case Err(kind) => Err(kind)
      case Ok(kept) =>
        match p(xs[|xs| - 1])
        case Err(kind) => Err(kind)
        case Ok(keep) => Ok(kept + (if keep then [xs[|xs| - 1]] else []))
  }

  /** The filter succeeds exactly when no test raises. */
  lemma {:induction false} FilterOrFailOk<T>(xs: seq<T>, p: T -> Result<bool>)
    ensures FilterOrFail(xs, p).Ok? <==> forall k :: 0 <= k < |xs| ==> p(xs[k]).Ok?
  {
    if |xs| > 0 {
      var init := xs[..|xs| - 1];
      FilterOrFailOk(init, p);
      assert forall k :: 0 <= k < |init| ==> init[k] == xs[k];
    }
  }

  /** When it succeeds, it keeps exactly the elements whose test answers true. */
  lemma {:induction false} FilterOrFailMembers<T>(xs: seq<T>, p: T -> Result<bool>, x: T)
    requires FilterOrFail(xs, p).Ok?
    ensures x in FilterOrFail(xs, p).value <==> x in xs && p(x) == Ok(true)
  {
    if |xs| > 0 {
      var init := xs[..|xs| - 1];
      var last := xs[|xs| - 1];
      assert FilterOrFail(init, p).Ok?;
      FilterOrFailMembers(init, p, x);
      assert xs == init + [last];
      var kept := FilterOrFail(init, p).value;
      assert FilterOrFail(xs, p).value == kept + (if p(last) == Ok(true) then [last] else []);
    }
  }

  /** When the filter fails, it fails with the exception of the first test that raises. */
  lemma {:induction false} FilterOrFailFirstError<T>(xs: seq<T>, p: T -> Result<bool>)
    requires FilterOrFail(xs, p).Err?
    ensures exists k :: 0 <= k < |xs| && p(xs[k]) == Err(FilterOrFail(xs, p).kind) &&
                        forall j :: 0 <= j < k ==> p(xs[j]).Ok?
  {
    var init := xs[..|xs| - 1];
    if FilterOrFail(init, p).Err? {
      FilterOrFailFirstError(init, p);
      var k :| 0 <= k < |init| && p(init[k]) == Err(FilterOrFail(init, p).kind) &&
               forall j :: 0 <= j < k ==> p(init[j]).Ok?;
      assert forall j :: 0 <= j <= k ==> init[j] == xs[j];
    } else {
      FilterOrFailOk(init, p);
      assert forall j :: 0 <= j < |init| ==> init[j] == xs[j];
      assert p(xs[|xs| - 1]) == Err(FilterOrFail(xs, p).kind);
    }
  }

  /** Extending a prefix that passed by one element, as a loop does. */
  lemma FilterOrFailSnoc<T>(xs: seq<T>, p: T -> Result<bool>, i: nat)
    requires i < |xs| && FilterOrFail(xs[..i], p).Ok?
    ensures p(xs[i]).Err? ==> FilterOrFail(xs[..i + 1], p) == Err(p(xs[i]).kind)
    ensures p(xs[i]).Ok? ==>
              FilterOrFail(xs[..i + 1], p) ==
              Ok(FilterOrFail(xs[..i], p).value + (if p(xs[i]).value then [xs[i]] else []))
  {
    assert xs[..i + 1][..i] == xs[..i];
  }

  /** An exception in a prefix is the exception of the whole filter. */
  lemma {:induction false} FilterOrFailErrPrefix<T>(xs: seq<T>, p: T -> Result<bool>, i: nat)
    requires i <= |xs| && FilterOrFail(xs[..i], p).Err?
    ensures FilterOrFail(xs, p) == FilterOrFail(xs[..i], p)
    decreases |xs| - i
  {
    if i < |xs| {
      assert xs[..i + 1][..i] == xs[..i];
      FilterOrFailErrPrefix(xs, p, i + 1);
    } else {
      assert xs[..i] == xs;
    }
  }

  /** Concatenation is associative. */
  lemma ConcatAssoc<T>(a: seq<T>, b: seq<T>, c: seq<T>)
    ensures (a + b) + c == a + (b + c)
  {
  }

  /** Two elements appended one after the other. */
  lemma SnocTwice<T>(a: seq<T>, x: T, y: T)
    ensures (a + [x]) + [y] == a + [x, y]
  {
  }

  /** An element of a prefix is the element at the same place in the whole list. */
  lemma PrefixAt<T>(all: seq<T>, front: seq<T>, k: nat)
    requires |front| <= |all| && all[..|front|] == front && k < |front|
    ensures all[k] == front[k]
  {
  }

  /** The prefix one element longer ends with that element and starts with the shorter one. */
  lemma PrefixSnoc<T>(xs: seq<T>, i: nat)
    requires i < |xs|
    ensures xs[..i + 1][..i] == xs[..i] && xs[..i + 1][i] == xs[i] && |xs[..i + 1]| == i + 1
  {
  }

  /** A non-empty list is its prefix followed by its last element. */
  lemma InitLast<T>(xs: seq<T>)
    requires |xs| > 0
    ensures xs[..|xs| - 1] + [xs[|xs| - 1]] == xs
  {
  }

  /** No element occurs twice. */
  predicate Distinct<T(==)>(xs: seq<T>)
  {
    forall i, j :: 0 <= i < j < |xs| ==> xs[i] != xs[j]
  }

  /** A prefix of a list of distinct elements has distinct elements. */
  lemma DistinctPrefix<T>(xs: seq<T>, n: nat)
    requires n <= |xs|
    requires forall i, j :: 0 <= i < j < |xs| ==> xs[i] != xs[j]
    ensures forall i, j :: 0 <= i < j < n ==> xs[..n][i] != xs[..n][j]
  {
    assert forall i :: 0 <= i < n ==> xs[..n][i] == xs[i];
  }

  /** What a prefix holds, the list holds. */
  lemma PrefixMembers<T>(xs: seq<T>, n: nat)
    requires n <= |xs|
    ensures forall x :: x in xs[..n] ==> x in xs
  {
    forall x | x in xs[..n]
      ensures x in xs
    {
      var i :| 0 <= i < n && xs[..n][i] == x;
      assert xs[i] == x;
    }
  }

  /** The last of distinct elements is not among the others. */
  lemma LastIsNew<T>(xs: seq<T>)
    requires |xs| > 0
    requires forall i, j :: 0 <= i < j < |xs| ==> xs[i] != xs[j]
    ensures xs[|xs| - 1] !in xs[..|xs| - 1]
  {
    var n := |xs| - 1;
    forall i | 0 <= i < n
      ensures xs[..n][i] != xs[n]
    {
      assert xs[..n][i] == xs[i];
    }
  }

  /** The sum of a list of counts, defined from the end. */
  function Sum(xs: seq<nat>): nat
    decreases |xs|
  {
    if |xs| == 0 then 0 else Sum(xs[..|xs| - 1]) + xs[|xs| - 1]
  }

  /** Summing a prefix one element longer. */
  lemma SumSnoc(xs: seq<nat>, i: nat)
    requires i < |xs|
    ensures Sum(xs[..i + 1]) == Sum(xs[..i]) + xs[i]
  {
    assert xs[..i + 1][..i] == xs[..i];
  }
}
