/**
 * Small shared vocabulary: optional values, "all or one" selections, and
 * the JavaScript array idioms the dashboard relies on (`filter`, `reduce`
 * with `+`, and the order-preserving subsequence that `filter` produces).
 */
module Base {

  /** `T | null | undefined` in the source. */
  datatype Option<+T> = None | Some(value: T)

  /**
   * A drop-down filter whose first option is "all": `Any` keeps everything,
   * `Only(v)` keeps the entries whose field equals `v`.
   */
  datatype Selection<+T> = Any | Only(value: T)

  predicate Selects<T(==)>(sel: Selection<T>, x: T)
  {
    match sel
    case Any => true
    case Only(v) => x == v
  }

  /** `s.filter(p)`: the elements of `s` that satisfy `p`, in their original order. */
  function Filter<T>(p: T -> bool, s: seq<T>): (r: seq<T>)
    ensures |r| <= |s|
    ensures forall x :: x in r ==> x in s && p(x)
  {
    if s == [] then []
    else if p(s[0]) then [s[0]] + Filter(p, s[1..])
    else Filter(p, s[1..])
  }

  /** `r` can be obtained from `s` by deleting elements, without reordering. */
  predicate IsSubsequence<T(==)>(r: seq<T>, s: seq<T>)
    decreases |s|
  {
    if r == [] then true
    else if s == [] then false
    else (r[0] == s[0] && IsSubsequence(r[1..], s[1..])) || IsSubsequence(r, s[1..])
  }

  /** Every element of `s` that satisfies `p` is kept by `Filter`. */
  lemma {:induction false} FilterKeeps<T>(p: T -> bool, s: seq<T>, x: T)
    requires x in s && p(x)
    ensures x in Filter(p, s)
  {
    if s[0] != x {
      FilterKeeps(p, s[1..], x);
    }
  }

  /** Membership in a filtered list is exactly membership plus the predicate. */
  lemma FilterMembership<T>(p: T -> bool, s: seq<T>, x: T)
    ensures x in Filter(p, s) <==> x in s && p(x)
  {
    if x in s && p(x) {
      FilterKeeps(p, s, x);
    }
  }

  /** `filter` never reorders: the result is a subsequence of its input. */
  lemma {:induction false} FilterIsSubsequence<T>(p: T -> bool, s: seq<T>)
    ensures IsSubsequence(Filter(p, s), s)
  {
    if s != [] {
      FilterIsSubsequence(p, s[1..]);
    }
  }

  /** Two predicates that agree on the elements of `s` filter `s` identically. */
  lemma {:induction false} FilterCongruent<T>(p: T -> bool, q: T -> bool, s: seq<T>)
    requires forall x :: x in s ==> p(x) == q(x)
    ensures Filter(p, s) == Filter(q, s)
  {
    if s != [] {
      FilterCongruent(p, q, s[1..]);
    }
  }

  /** A predicate that holds on every element keeps the whole list. */
  lemma {:induction false} FilterAll<T>(p: T -> bool, s: seq<T>)
    requires forall x :: x in s ==> p(x)
    ensures Filter(p, s) == s
  {
    if s != [] {
      FilterAll(p, s[1..]);
    }
  }

  /** The elements kept by `p` and those kept by its complement `q` add up to the whole list. */
  lemma {:induction false} FilterPartition<T>(p: T -> bool, q: T -> bool, s: seq<T>)
    requires forall x :: x in s ==> q(x) == !p(x)
    ensures |Filter(p, s)| + |Filter(q, s)| == |s|
  {
    if s != [] {
      FilterPartition(p, q, s[1..]);
    }
  }

  /** Filtering a filtered list is filtering by the conjunction. */
  lemma {:induction false} FilterFilter<T>(p: T -> bool, q: T -> bool, s: seq<T>)
    ensures Filter(q, Filter(p, s)) == Filter(x => p(x) && q(x), s)
  {
    if s != [] {
      FilterFilter(p, q, s[1..]);
    }
  }

  /** A predicate that holds on no element keeps nothing. */
  lemma {:induction false} FilterNone<T>(p: T -> bool, s: seq<T>)
    requires forall i :: 0 <= i < |s| ==> !p(s[i])
    ensures Filter(p, s) == []
  {
    if s != [] {
      FilterNone(p, s[1..]);
    }
  }

  /** Filtering distributes over concatenation. */
  lemma {:induction false} FilterAppend<T>(p: T -> bool, s: seq<T>, t: seq<T>)
    ensures Filter(p, s + t) == Filter(p, s) + Filter(p, t)
  {
    if s == [] {
      assert s + t == t;
    } else {
      assert (s + t)[1..] == s[1..] + t;
      FilterAppend(p, s[1..], t);
    }
  }

  /** When exactly one element satisfies `p`, the filter keeps that element alone. */
  lemma FilterSingle<T>(p: T -> bool, s: seq<T>, k: nat)
    requires k < |s| && p(s[k])
    requires forall i :: 0 <= i < |s| && i != k ==> !p(s[i])
    ensures Filter(p, s) == [s[k]]
  {
    assert s == s[..k] + [s[k]] + s[k + 1..];
    FilterNone(p, s[..k]);
    FilterNone(p, s[k + 1..]);
    FilterAppend(p, s[..k] + [s[k]], s[k + 1..]);
    FilterAppend(p, s[..k], [s[k]]);
  }

  /** `s.reduce((sum, x) => sum + f(x), 0)`. */
  function SumOf<T>(f: T -> int, s: seq<T>): int
  {
    if s == [] then 0 else f(s[0]) + SumOf(f, s[1..])
  }

  /** A filter `p` and its complement `q` split a sum into the part each keeps. */
  lemma {:induction false} SumOfFilterSplit<T>(f: T -> int, p: T -> bool, q: T -> bool, s: seq<T>)
    requires forall x :: x in s ==> q(x) == !p(x)
    ensures SumOf(f, Filter(p, s)) + SumOf(f, Filter(q, s)) == SumOf(f, s)
  {
    if s != [] {
      SumOfFilterSplit(f, p, q, s[1..]);
    }
  }

  /** With non-negative terms, a filtered sum never exceeds the full sum. */
  lemma {:induction false} SumOfFilterBounded<T>(f: T -> int, p: T -> bool, s: seq<T>)
    requires forall x :: x in s ==> f(x) >= 0
    ensures 0 <= SumOf(f, Filter(p, s)) <= SumOf(f, s)
  {
    if s != [] {
      SumOfFilterBounded(f, p, s[1..]);
    }
  }
}
