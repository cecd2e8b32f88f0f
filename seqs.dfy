/** Swift's `Array.filter`, with the facts about it the router relies on. */
module Seqs {

  /** The elements of `xs` that satisfy `f`. The body keeps their order;
      `FilterHead` states the part of that order the router relies on. */
  function Filter<T>(xs: seq<T>, f: T -> bool): (r: seq<T>)
    ensures |r| <= |xs|
    ensures forall i :: 0 <= i < |r| ==> r[i] in xs && f(r[i])
    ensures forall i :: 0 <= i < |xs| && f(xs[i]) ==> xs[i] in r
    decreases |xs|
  {
    if |xs| == 0 then []
    else if f(xs[0]) then [xs[0]] + Filter(xs[1..], f)
    else Filter(xs[1..], f)
  }

  /** The first element of a filtered sequence is the earliest element of
      the original that satisfies the predicate. */
  lemma {:induction false} FilterHead<T>(xs: seq<T>, f: T -> bool, k: nat)
    requires k < |xs| && f(xs[k])
    requires forall j :: 0 <= j < k ==> !f(xs[j])
    ensures |Filter(xs, f)| > 0 && Filter(xs, f)[0] == xs[k]
  {
    if k > 0 {
      assert forall j :: 0 <= j < k - 1 ==> xs[1..][j] == xs[j + 1];
      FilterHead(xs[1..], f, k - 1);
    }
  }

  /** Filtering twice, where the second predicate implies the first, is
      filtering once by the second. */
  lemma {:induction false} FilterFilter<T>(xs: seq<T>, q: T -> bool, e: T -> bool)
    requires forall x :: e(x) ==> q(x)
    ensures Filter(Filter(xs, q), e) == Filter(xs, e)
    decreases |xs|
  {
    if |xs| > 0 {
      FilterFilter(xs[1..], q, e);
      if q(xs[0]) {
        assert Filter(xs, q) == [xs[0]] + Filter(xs[1..], q);
        assert Filter(xs, q)[1..] == Filter(xs[1..], q);
      }
    }
  }

  /** Filtering by a predicate no element satisfies leaves nothing. */
  lemma {:induction false} FilterNone<T>(xs: seq<T>, f: T -> bool)
    requires forall i :: 0 <= i < |xs| ==> !f(xs[i])
    ensures Filter(xs, f) == []
    decreases |xs|
  {
    if |xs| > 0 {
      FilterNone(xs[1..], f);
    }
  }

  /** Filtering by a predicate every element satisfies changes nothing. */
  lemma {:induction false} FilterAll<T>(xs: seq<T>, f: T -> bool)
    requires forall i :: 0 <= i < |xs| ==> f(xs[i])
    ensures Filter(xs, f) == xs
    decreases |xs|
  {
    if |xs| > 0 {
      FilterAll(xs[1..], f);
    }
  }
}
