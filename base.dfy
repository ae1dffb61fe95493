/** Generic helpers for the list computations the pages perform with
    JavaScript's `Array.prototype.filter`, `find` and `Array.from(new Set(..))`. */
module Base {

  datatype Option<+T> = None | Some(value: T)

  /** `r` is an order-preserving sublist of `s`. */
  predicate IsSubsequence<T(==)>(r: seq<T>, s: seq<T>)
    decreases |s|
  {
    |r| == 0 ||
    (|s| > 0 && ((r[0] == s[0] && IsSubsequence(r[1..], s[1..])) || IsSubsequence(r, s[1..])))
  }

  lemma {:induction false} SubsequenceOfItself<T>(s: seq<T>)
    ensures IsSubsequence(s, s)
    decreases |s|
  {
    if |s| > 0 {
      SubsequenceOfItself(s[1..]);
    }
  }

  predicate NoDuplicates<T(==)>(s: seq<T>)
  {
    forall i, j :: 0 <= i < j < |s| ==> s[i] != s[j]
  }

  /** `Array.prototype.filter`: the elements satisfying `p`, in their original order. */
  function Filter<T(==,!new)>(s: seq<T>, p: T -> bool): (r: seq<T>)
    ensures |r| <= |s|
    ensures forall x :: x in r <==> x in s && p(x)
    ensures IsSubsequence(r, s)
    // every element that passes keeps all its copies, and the others none
    ensures forall x :: multiset(r)[x] == if p(x) then multiset(s)[x] else 0
  {
    if |s| == 0 then []
    else
      assert s == [s[0]] + s[1..];
      if p(s[0]) then
        var rest := Filter(s[1..], p);
        assert ([s[0]] + rest)[1..] == rest;
        [s[0]] + rest
      else Filter(s[1..], p)
  }

  lemma {:induction false} FilterKeepsAll<T(!new)>(s: seq<T>, p: T -> bool)
    requires forall x :: x in s ==> p(x)
    ensures Filter(s, p) == s
  {
    if |s| > 0 {
      FilterKeepsAll(s[1..], p);
      assert [s[0]] + s[1..] == s;
    }
  }

  /** Filtering with two pointwise-equal predicates gives the same list. */
  lemma {:induction false} FilterExtensional<T(!new)>(s: seq<T>, p: T -> bool, q: T -> bool)
    requires forall x :: x in s ==> p(x) == q(x)
    ensures Filter(s, p) == Filter(s, q)
  {
    if |s| > 0 {
      FilterExtensional(s[1..], p, q);
    }
  }

  /** Two successive filters are one filter with the conjunction. */
  lemma {:induction false} FilterFilter<T(!new)>(s: seq<T>, p: T -> bool, q: T -> bool, pq: T -> bool)
    requires forall x :: x in s ==> pq(x) == (p(x) && q(x))
    ensures Filter(Filter(s, p), q) == Filter(s, pq)
  {
    if |s| > 0 {
      FilterFilter(s[1..], p, q, pq);
      if p(s[0]) {
        var rest := Filter(s[1..], p);
        assert Filter(s, p) == [s[0]] + rest;
        assert ([s[0]] + rest)[1..] == rest;
      }
    }
  }

  /** Removing every occurrence of a value keeps a duplicate-free list duplicate-free. */
  lemma {:induction false} FilterKeepsNoDuplicates<T(!new)>(s: seq<T>, p: T -> bool)
    requires NoDuplicates(s)
    ensures NoDuplicates(Filter(s, p))
  {
    if |s| > 0 {
      FilterKeepsNoDuplicates(s[1..], p);
      var rest := Filter(s[1..], p);
      if p(s[0]) {
        assert s[0] !in s[1..];
        assert s[0] !in rest;
        var r := [s[0]] + rest;
        forall i, j | 0 <= i < j < |r| ensures r[i] != r[j] {
          if i == 0 { assert r[j] == rest[j - 1]; assert r[j] in rest; }
          else { assert r[i] == rest[i - 1] && r[j] == rest[j - 1]; }
        }
      }
    }
  }

  /** Filtering distributes over concatenation. */
  lemma {:induction false} FilterAppend<T(!new)>(s: seq<T>, t: seq<T>, p: T -> bool)
    ensures Filter(s + t, p) == Filter(s, p) + Filter(t, p)
    decreases |s|
  {
    if |s| > 0 {
      assert (s + t)[1..] == s[1..] + t;
      FilterAppend(s[1..], t, p);
    } else {
      assert s + t == t;
    }
  }

  /** When no element passes, the filter is empty. */
  lemma {:induction false} FilterKeepsNone<T(!new)>(s: seq<T>, p: T -> bool)
    requires forall x :: x in s ==> !p(x)
    ensures Filter(s, p) == []
  {
    if |s| > 0 {
      FilterKeepsNone(s[1..], p);
    }
  }

  /** `Array.prototype.find` on a key: the first element whose key is `k`. */
  function FindFirst<T>(s: seq<T>, key: T -> string, k: string): (r: Option<T>)
    ensures r.None? <==> forall i :: 0 <= i < |s| ==> key(s[i]) != k
    ensures r.Some? ==> exists i :: 0 <= i < |s| && s[i] == r.value && key(s[i]) == k &&
                          forall j :: 0 <= j < i ==> key(s[j]) != k
  {
    if |s| == 0 then None
    else if key(s[0]) == k then Some(s[0])
    else
      var r := FindFirst(s[1..], key, k);
      r
  }

  /** `Array.from(new Set(s))`: each value of `s` once. */
  function Distinct<T(==,!new)>(s: seq<T>): (r: seq<T>)
    ensures NoDuplicates(r)
    ensures forall x :: x in r <==> x in s
    decreases |s|
  {
    if |s| == 0 then []
    else
      var front := Distinct(s[..|s| - 1]);
      var last := s[|s| - 1];
      assert forall x :: x in s <==> x in s[..|s| - 1] || x == last by {
        assert s == s[..|s| - 1] + [last];
      }
      if last in front then front else front + [last]
  }

  /** A non-empty list of one repeated value has that value as its only distinct element. */
  lemma {:induction false} DistinctOfConstant<T(!new)>(s: seq<T>, x: T)
    requires |s| > 0 && forall k :: 0 <= k < |s| ==> s[k] == x
    ensures Distinct(s) == [x]
    decreases |s|
  {
    if |s| > 1 {
      DistinctOfConstant(s[..|s| - 1], x);
    }
  }
}
