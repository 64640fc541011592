/** The array operations the pages use, on sequences: `filter` by element and by index. */
module Seqs {

  /** `s.filter(p)`: the elements of `s` that satisfy `p`, in their original order. */
  function Filter<T(==)>(p: T -> bool, s: seq<T>): (r: seq<T>)
    ensures |r| <= |s|
    ensures forall i :: 0 <= i < |r| ==> r[i] in s && p(r[i])
    ensures forall i :: 0 <= i < |s| && p(s[i]) ==> s[i] in r
  {
    if s == [] then []
    else (if p(s[0]) then [s[0]] else []) + Filter(p, s[1..])
  }

  /** Filtering keeps every copy of an element that passes and no copy of one that
      fails, so it fixes how often each element occurs in the result. */
  lemma {:induction false} FilterCounts<T>(p: T -> bool, s: seq<T>)
    ensures multiset(Filter(p, s)) <= multiset(s)
    ensures forall x | x in s :: multiset(Filter(p, s))[x] == if p(x) then multiset(s)[x] else 0
  {
    if s != [] {
      var tail := s[1..];
      FilterCounts(p, tail);
      var head := if p(s[0]) then [s[0]] else [];
      var rest := Filter(p, tail);
      assert s == [s[0]] + tail;
      assert multiset(s) == multiset([s[0]]) + multiset(tail);
      assert multiset(Filter(p, s)) == multiset(head) + multiset(rest);
      forall x | x in s
        ensures multiset(Filter(p, s))[x] == if p(x) then multiset(s)[x] else 0
      {
        if x !in tail {
          assert multiset(tail)[x] == 0 && multiset(rest)[x] == 0;
        }
      }
    }
  }

  /** `a` can be obtained from `b` by deleting elements, without reordering the rest. */
  predicate IsSubsequence<T(==)>(a: seq<T>, b: seq<T>)
    decreases |b|
  {
    if b == [] then a == []
    else (a != [] && a[0] == b[0] && IsSubsequence(a[1..], b[1..])) || IsSubsequence(a, b[1..])
  }

  /** Filtering keeps the order of the elements it keeps. */
  lemma {:induction false} FilterIsSubsequence<T>(p: T -> bool, s: seq<T>)
    ensures IsSubsequence(Filter(p, s), s)
  {
    if s != [] {
      FilterIsSubsequence(p, s[1..]);
      if p(s[0]) {
        assert Filter(p, s)[1..] == Filter(p, s[1..]);
      } else {
        assert Filter(p, s) == Filter(p, s[1..]);
      }
    }
  }

  /** Filtering a concatenation filters each part. */
  lemma {:induction false} FilterAppend<T>(p: T -> bool, a: seq<T>, b: seq<T>)
    ensures Filter(p, a + b) == Filter(p, a) + Filter(p, b)
  {
    if a != [] {
      assert (a + b)[1..] == a[1..] + b;
      FilterAppend(p, a[1..], b);
    } else {
      assert a + b == b;
    }
  }

  /** Filtering a sequence with one more element at the end: the element is kept
      at the end exactly when it passes. With `Filter(p, []) == []` this fixes the
      result completely. */
  lemma FilterSnoc<T>(p: T -> bool, s: seq<T>, x: T)
    ensures Filter(p, s + [x]) == Filter(p, s) + if p(x) then [x] else []
  {
    FilterAppend(p, s, [x]);
    assert [x][1..] == [];
  }

  /** Filtering keeps a sequence whose elements all pass, and so it is idempotent. */
  lemma {:induction false} FilterAllPass<T>(p: T -> bool, s: seq<T>)
    requires forall i :: 0 <= i < |s| ==> p(s[i])
    ensures Filter(p, s) == s
  {
    if s != [] {
      FilterAllPass(p, s[1..]);
    }
  }

  /** `s.filter((_, k) => k !== i)`: drop position `i`, keep everything else in order;
      an index outside `s` drops nothing. */
  function WithoutIndex<T>(s: seq<T>, i: int): (r: seq<T>)
    ensures 0 <= i < |s| ==> r == s[..i] + s[i + 1..]
    ensures !(0 <= i < |s|) ==> r == s
  {
    if s == [] then []
    else if i == 0 then s[1..]
    else [s[0]] + WithoutIndex(s[1..], i - 1)
  }
}
