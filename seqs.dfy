/** Sequence helpers standing in for Python list comprehensions with an `if` clause. */
module Seqs {

  /** The elements of `s` that satisfy `p`, in their original order (the last element is
      considered last, which is what a loop that appends needs). */
  function Filter<T>(s: seq<T>, p: T -> bool): (r: seq<T>)
    ensures |r| <= |s|
  {
    if s == [] then []
    else
      var init := Filter(s[..|s| - 1], p);
      if p(s[|s| - 1]) then init + [s[|s| - 1]] else init
  }

  /** Extending the input by one element extends the filtered sequence by that element
      exactly when it passes. */
  lemma FilterSnoc<T>(s: seq<T>, x: T, p: T -> bool)
    ensures Filter(s + [x], p) == Filter(s, p) + (if p(x) then [x] else [])
  {
    assert (s + [x])[..|s + [x]| - 1] == s;
  }

  /** An element survives the filter exactly when it was in the input and passes. */
  lemma {:induction false} FilterMember<T>(s: seq<T>, p: T -> bool, x: T)
    ensures x in Filter(s, p) <==> x in s && p(x)
  {
    if s != [] {
      var init := s[..|s| - 1];
      FilterMember(init, p, x);
      assert s == init + [s[|s| - 1]];
    }
  }

  /** Filtering by `p` and by its complement splits the input: together they hold every
      element exactly as often as the input does. */
  lemma {:induction false} FilterPartition<T>(s: seq<T>, p: T -> bool, q: T -> bool)
    requires forall x :: q(x) == !p(x)
    ensures multiset(Filter(s, p)) + multiset(Filter(s, q)) == multiset(s)
  {
    if s != [] {
      var init := s[..|s| - 1];
      FilterPartition(init, p, q);
      assert s == init + [s[|s| - 1]];
    }
  }

  /** A stricter predicate keeps no more elements. */
  lemma {:induction false} FilterLengthMonotone<T>(s: seq<T>, p: T -> bool, q: T -> bool)
    requires forall x :: q(x) ==> p(x)
    ensures |Filter(s, q)| <= |Filter(s, p)|
  {
    if s != [] {
      FilterLengthMonotone(s[..|s| - 1], p, q);
    }
  }

  /** A sequence without repeated elements has as many distinct elements as positions. */
  lemma {:induction false} DistinctCardinality<T>(s: seq<T>)
    requires forall i, j :: 0 <= i < j < |s| ==> s[i] != s[j]
    ensures |set x | x in s| == |s|
  {
    if s != [] {
      var init := s[..|s| - 1];
      var last := s[|s| - 1];
      DistinctCardinality(init);
      assert s == init + [last];
      assert (set x | x in s) == (set x | x in init) + {last};
      assert last !in init;
    }
  }
}
