/** Sums of integer sequences, and sums along a list of indices. */
module Sums {

  function Sum(xs: seq<int>): int {
    if xs == [] then 0 else Sum(xs[..|xs| - 1]) + xs[|xs| - 1]
  }

  lemma SumAppend(xs: seq<int>, x: int)
    ensures Sum(xs + [x]) == Sum(xs) + x
  {
    assert (xs + [x])[..|xs|] == xs;
  }

  lemma {:induction false} SumUpdate(xs: seq<int>, i: nat, x: int)
    requires i < |xs|
    ensures Sum(xs[i := x]) == Sum(xs) - xs[i] + x
  {
    var n := |xs| - 1;
    if i == n {
      assert xs[i := x][..n] == xs[..n];
    } else {
      assert xs[i := x][..n] == xs[..n][i := x];
      SumUpdate(xs[..n], i, x);
    }
  }

  /** Every member of a sum of non-negative numbers is at most the sum. */
  lemma {:induction false} SumCovers(xs: seq<int>, i: nat)
    requires i < |xs|
    requires forall j | 0 <= j < |xs| :: xs[j] >= 0
    ensures 0 <= xs[i] <= Sum(xs)
  {
    SumUpdate(xs, i, 0);
    SumNonNegative(xs[i := 0]);
  }

  lemma {:induction false} SumNonNegative(xs: seq<int>)
    requires forall j | 0 <= j < |xs| :: xs[j] >= 0
    ensures Sum(xs) >= 0
  {
    if xs != [] {
      SumNonNegative(xs[..|xs| - 1]);
    }
  }

  /** Pointwise domination carries over to the sums, keeping one member's slack. */
  lemma {:induction false} SumDominated(xs: seq<int>, ys: seq<int>)
    requires |xs| == |ys|
    requires forall j | 0 <= j < |xs| :: xs[j] <= ys[j]
    ensures Sum(xs) <= Sum(ys)
  {
    if xs != [] {
      SumDominated(xs[..|xs| - 1], ys[..|ys| - 1]);
    }
  }

  lemma {:induction false} SumZero(xs: seq<int>)
    requires forall j | 0 <= j < |xs| :: xs[j] == 0
    ensures Sum(xs) == 0
  {
    if xs != [] {
      SumZero(xs[..|xs| - 1]);
    }
  }

  /** Every index in the list names a member of a sequence of length `n`. */
  ghost predicate Within(at: seq<nat>, n: nat) {
    forall a | 0 <= a < |at| :: at[a] < n
  }

  ghost predicate Distinct<T>(at: seq<T>) {
    forall a, b | 0 <= a < b < |at| :: at[a] != at[b]
  }

  /** The sum of the members of `xs` that the index list `at` names. */
  function SumAt(at: seq<nat>, xs: seq<int>): int
    requires Within(at, |xs|)
  {
    if at == [] then 0 else SumAt(at[..|at| - 1], xs) + xs[at[|at| - 1]]
  }

  /** `xs` with the members at the given indices replaced by zero. */
  function Cleared(at: seq<nat>, xs: seq<int>): (ys: seq<int>)
    ensures |ys| == |xs|
  {
    seq(|xs|, i requires 0 <= i < |xs| => if i in at then 0 else xs[i])
  }

  /** Clearing a duplicate-free index list takes exactly its members out of the sum. */
  lemma {:induction false} SumCleared(at: seq<nat>, xs: seq<int>)
    requires Distinct(at) && Within(at, |xs|)
    ensures Sum(Cleared(at, xs)) == Sum(xs) - SumAt(at, xs)
  {
    if at == [] {
      assert Cleared(at, xs) == xs;
    } else {
      var init, last := at[..|at| - 1], at[|at| - 1];
      SumCleared(init, xs);
      assert at == init + [last];
      assert last !in init;
      assert Cleared(at, xs) == Cleared(init, xs)[last := 0];
      SumUpdate(Cleared(init, xs), last, 0);
    }
  }

  /** A duplicate-free list that names every non-zero member sums to the whole. */
  lemma SumListing(at: seq<nat>, xs: seq<int>)
    requires Distinct(at) && Within(at, |xs|)
    requires forall i: nat | i < |xs| && i !in at :: xs[i] == 0
    ensures SumAt(at, xs) == Sum(xs)
  {
    SumCleared(at, xs);
    SumZero(Cleared(at, xs));
  }

  lemma SumAtAppend(at: seq<nat>, i: nat, xs: seq<int>)
    requires Within(at, |xs|) && i < |xs|
    ensures SumAt(at + [i], xs) == SumAt(at, xs) + xs[i]
  {
    assert (at + [i])[..|at|] == at;
  }

  // ---------- duplicate-free lists ----------

  lemma MultiplicityTwo<T>(xs: seq<T>, a: nat, b: nat)
    requires a < b < |xs| && xs[a] == xs[b]
    ensures multiset(xs)[xs[a]] >= 2
  {
    assert xs == xs[..a] + [xs[a]] + xs[a + 1..b] + [xs[b]] + xs[b + 1..];
  }

  lemma {:induction false} DistinctMultiplicity<T>(xs: seq<T>, x: T)
    requires Distinct(xs)
    ensures multiset(xs)[x] <= 1
  {
    if xs != [] {
      var n := |xs| - 1;
      assert xs == xs[..n] + [xs[n]];
      DistinctMultiplicity(xs[..n], x);
      assert xs[n] !in xs[..n];
    }
  }

  /** Shuffling a duplicate-free list gives a duplicate-free list. */
  lemma DistinctShuffled<T>(xs: seq<T>, ys: seq<T>)
    requires Distinct(xs) && multiset(ys) == multiset(xs)
    ensures Distinct(ys)
  {
    forall a, b | 0 <= a < b < |ys|
      ensures ys[a] != ys[b]
    {
      if ys[a] == ys[b] {
        MultiplicityTwo(ys, a, b);
        DistinctMultiplicity(xs, ys[a]);
      }
    }
  }
}
