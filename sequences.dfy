/** Order-preserving selection from a sequence, the shape of JavaScript's
    non-mutating `Array.prototype.filter`, and the subsequence relation it
    produces. */
module Sequences {

  /** The elements of `s` that satisfy `p`, in their original order.
      Each element is kept exactly as often as it occurs in `s`. */
  function Filter<T(!new)>(p: T -> bool, s: seq<T>): (r: seq<T>)
    ensures |r| <= |s|
  {
    if s == [] then []
    else (if p(s[0]) then [s[0]] else []) + Filter(p, s[1..])
  }

  /** An element is kept exactly when it occurs in the input and passes. */
  lemma {:induction false} FilterMembership<T(!new)>(p: T -> bool, s: seq<T>)
    ensures forall x :: x in Filter(p, s) <==> x in s && p(x)
    decreases |s|
  {
    if s != [] {
      FilterMembership(p, s[1..]);
      assert s == [s[0]] + s[1..];
    }
  }

  /** An element that passes is kept as many times as it occurs; one that
      fails is dropped entirely. */
  lemma {:induction false} FilterMultiplicity<T(!new)>(p: T -> bool, s: seq<T>)
    ensures forall x :: multiset(Filter(p, s))[x] == if p(x) then multiset(s)[x] else 0
    decreases |s|
  {
    if s != [] {
      FilterMultiplicity(p, s[1..]);
      assert s == [s[0]] + s[1..];
    }
  }

  /** Filtering a sequence with a given first element decides that element
      and then filters the rest. */
  lemma FilterCons<T(!new)>(p: T -> bool, x: T, s: seq<T>)
    ensures Filter(p, [x] + s) == (if p(x) then [x] else []) + Filter(p, s)
  {
    assert ([x] + s)[1..] == s;
  }

  /** A predicate that rejects every element gives the empty sequence. */
  lemma {:induction false} FilterRejectsAll<T(!new)>(p: T -> bool, s: seq<T>)
    requires forall x :: x in s ==> !p(x)
    ensures Filter(p, s) == []
    decreases |s|
  {
    if s != [] {
      FilterRejectsAll(p, s[1..]);
    }
  }

  /** `a` can be obtained from `b` by deleting elements, without inserting,
      duplicating or reordering anything. */
  ghost predicate IsSubsequence<T>(a: seq<T>, b: seq<T>)
    decreases |b|
  {
    a == [] ||
    (b != [] &&
     ((a[0] == b[0] && IsSubsequence(a[1..], b[1..])) || IsSubsequence(a, b[1..])))
  }

  /** Filtering only ever deletes elements. */
  lemma {:induction false} FilterIsSubsequence<T(!new)>(p: T -> bool, s: seq<T>)
    ensures IsSubsequence(Filter(p, s), s)
    decreases |s|
  {
    if s != [] {
      var rest := Filter(p, s[1..]);
      FilterIsSubsequence(p, s[1..]);
      if p(s[0]) {
        assert Filter(p, s) == [s[0]] + rest;
        assert ([s[0]] + rest)[1..] == rest;
      } else {
        assert Filter(p, s) == rest;
      }
    }
  }

  /** Filtering with a stronger predicate selects a subsequence of what the
      weaker predicate selects. */
  lemma {:induction false} FilterStrongerIsSubsequence<T(!new)>(q: T -> bool, p: T -> bool, s: seq<T>)
    requires forall x :: q(x) ==> p(x)
    ensures IsSubsequence(Filter(q, s), Filter(p, s))
    decreases |s|
  {
    if s != [] {
      var weak, strong := Filter(p, s[1..]), Filter(q, s[1..]);
      FilterStrongerIsSubsequence(q, p, s[1..]);
      if q(s[0]) {
        assert Filter(q, s) == [s[0]] + strong;
        assert Filter(p, s) == [s[0]] + weak;
        assert ([s[0]] + strong)[1..] == strong;
        assert ([s[0]] + weak)[1..] == weak;
      } else if p(s[0]) {
        assert Filter(q, s) == strong;
        assert Filter(p, s) == [s[0]] + weak;
        assert ([s[0]] + weak)[1..] == weak;
      } else {
        assert Filter(q, s) == strong;
        assert Filter(p, s) == weak;
      }
    }
  }

  /** Two filters applied one after the other select exactly what one filter
      by the conjunction `both` selects. */
  lemma {:induction false} FilterFusion<T(!new)>(p: T -> bool, q: T -> bool, both: T -> bool, s: seq<T>)
    requires forall x :: both(x) == (p(x) && q(x))
    ensures Filter(q, Filter(p, s)) == Filter(both, s)
    decreases |s|
  {
    if s != [] {
      FilterFusion(p, q, both, s[1..]);
      var rest := Filter(p, s[1..]);
      if p(s[0]) {
        assert Filter(p, s) == [s[0]] + rest;
        assert ([s[0]] + rest)[1..] == rest;
      } else {
        assert Filter(p, s) == rest;
      }
    }
  }

  /** Filtering depends only on which elements the predicate accepts. */
  lemma {:induction false} FilterExtensional<T(!new)>(p: T -> bool, q: T -> bool, s: seq<T>)
    requires forall x :: x in s ==> (p(x) <==> q(x))
    ensures Filter(p, s) == Filter(q, s)
    decreases |s|
  {
    if s != [] {
      FilterExtensional(p, q, s[1..]);
    }
  }

  /** A predicate that accepts every element keeps the sequence unchanged. */
  lemma {:induction false} FilterKeepsAll<T(!new)>(p: T -> bool, s: seq<T>)
    requires forall x :: x in s ==> p(x)
    ensures Filter(p, s) == s
    decreases |s|
  {
    if s != [] {
      FilterKeepsAll(p, s[1..]);
      assert s == [s[0]] + s[1..];
    }
  }
}
