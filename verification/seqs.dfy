/**
 * The array operations the reducers and pages are built from:
 * `filter`, `findIndex`/`find`, "replace the first match",
 * `filter((_, i) => i !== index)`, `slice(0, n)` and counting.
 */
module Seqs {
  import opened Wrappers

  /** `s.filter(p)`. */
  function Filter<T(==)>(s: seq<T>, p: T -> bool): (r: seq<T>)
    ensures |r| <= |s|
    ensures forall x | x in r :: x in s && p(x)
    ensures forall i | 0 <= i < |s| && p(s[i]) :: s[i] in r
    ensures (forall i | 0 <= i < |s| :: p(s[i])) ==> r == s
  {
    if |s| == 0 then []
    else (if p(s[0]) then [s[0]] else []) + Filter(s[1..], p)
  }

  /** Filtering keeps every copy of a passing element and no copy of a failing one. */
  lemma {:induction false} FilterMultiset<T>(s: seq<T>, p: T -> bool)
    ensures forall x | x in s :: multiset(Filter(s, p))[x] == if p(x) then multiset(s)[x] else 0
    decreases |s|
  {
    if |s| > 0 {
      FilterMultiset(s[1..], p);
      assert s == [s[0]] + s[1..];
      assert multiset(s) == multiset{s[0]} + multiset(s[1..]);
      FilterCons(s[0], s[1..], p);
      forall x | x in s
        ensures multiset(Filter(s, p))[x] == if p(x) then multiset(s)[x] else 0
      {
        if x !in s[1..] {
          assert multiset(s[1..])[x] == 0;
          assert multiset(Filter(s[1..], p))[x] == 0;
        }
      }
    }
  }

  /** `a` is `b` with some elements left out and the rest in their original order. */
  predicate IsSubsequence<T(==)>(a: seq<T>, b: seq<T>)
    decreases |b|
  {
    if |b| == 0 then |a| == 0
    else (|a| > 0 && a[0] == b[0] && IsSubsequence(a[1..], b[1..])) || IsSubsequence(a, b[1..])
  }

  /** Filtering keeps the surviving elements in their original order. */
  lemma {:induction false} FilterIsSubsequence<T>(s: seq<T>, p: T -> bool)
    ensures IsSubsequence(Filter(s, p), s)
    decreases |s|
  {
    if |s| > 0 {
      FilterIsSubsequence(s[1..], p);
      if p(s[0]) {
        assert Filter(s, p) == [s[0]] + Filter(s[1..], p);
        assert Filter(s, p)[1..] == Filter(s[1..], p);
      } else {
        assert Filter(s, p) == Filter(s[1..], p);
      }
    }
  }

  /** Filtering distributes over concatenation. */
  lemma {:induction false} FilterAppend<T>(a: seq<T>, b: seq<T>, p: T -> bool)
    ensures Filter(a + b, p) == Filter(a, p) + Filter(b, p)
    decreases |a|
  {
    if |a| == 0 {
      assert a + b == b;
    } else {
      var h: seq<T> := if p(a[0]) then [a[0]] else [];
      var t := a[1..];
      calc {
        Filter(a + b, p);
        { assert a + b == [a[0]] + (t + b); FilterCons(a[0], t + b, p); }
        h + Filter(t + b, p);
        { FilterAppend(t, b, p); }
        h + (Filter(t, p) + Filter(b, p));
        (h + Filter(t, p)) + Filter(b, p);
        { assert a == [a[0]] + t; FilterCons(a[0], t, p); }
        Filter(a, p) + Filter(b, p);
      }
    }
  }

  /** Nothing passes, nothing is kept. */
  lemma {:induction false} FilterNone<T>(s: seq<T>, p: T -> bool)
    requires forall i | 0 <= i < |s| :: !p(s[i])
    ensures Filter(s, p) == []
  {
    if |s| > 0 {
      FilterNone(s[1..], p);
    }
  }

  /** One step of `Filter`, stated on a sequence built by prepending. */
  /** Filtering the suffix from `k` on: the element at `k`, if it passes, then the rest. */
  lemma FilterFrom<T>(s: seq<T>, k: int, p: T -> bool)
    requires 0 <= k < |s|
    ensures Filter(s[k..], p) == (if p(s[k]) then [s[k]] else []) + Filter(s[k + 1..], p)
  {
    assert s[k..][1..] == s[k + 1..];
  }

  lemma FilterCons<T>(x: T, s: seq<T>, p: T -> bool)
    ensures Filter([x] + s, p) == (if p(x) then [x] else []) + Filter(s, p)
  {
    assert ([x] + s)[1..] == s;
  }

  /** The elements of `s` that satisfy `p`, counted. */
  function CountWhere<T(==)>(s: seq<T>, p: T -> bool): (n: nat)
    ensures n == |Filter(s, p)|
    ensures n <= |s|
  {
    if |s| == 0 then 0 else (if p(s[0]) then 1 else 0) + CountWhere(s[1..], p)
  }

  /** `s.findIndex(p)`, with `None` for JavaScript's `-1`. */
  function FindIndex<T>(s: seq<T>, p: T -> bool): (r: Option<nat>)
    ensures r.Some? ==> r.value < |s| && p(s[r.value])
    ensures r.Some? ==> forall j | 0 <= j < r.value :: !p(s[j])
    ensures r.None? <==> forall j | 0 <= j < |s| :: !p(s[j])
  {
    if |s| == 0 then None
    else if p(s[0]) then Some(0)
    else match FindIndex(s[1..], p)
      case None => None
      case Some(i) => Some(i + 1)
  }

  /** `i` is the position of the first element of `s` that satisfies `p`. */
  predicate IsFirstMatch<T>(s: seq<T>, p: T -> bool, i: int) {
    0 <= i < |s| && p(s[i]) && forall j | 0 <= j < i :: !p(s[j])
  }

  /** `s.find(p)`: the first element that satisfies `p`, if any. */
  function Find<T>(s: seq<T>, p: T -> bool): (r: Option<T>)
    ensures r.Some? <==> exists i :: IsFirstMatch(s, p, i)
    ensures forall i | IsFirstMatch(s, p, i) :: r == Some(s[i])
  {
    match FindIndex(s, p)
    case None => None
    case Some(i) =>
      assert IsFirstMatch(s, p, i);
      Some(s[i])
  }

  /** A sequence has at most one first match. */
  lemma FirstMatchUnique<T>(s: seq<T>, p: T -> bool, i: int, k: int)
    requires IsFirstMatch(s, p, i) && IsFirstMatch(s, p, k)
    ensures i == k
  {
  }

  /**
   * `const i = s.findIndex(p); if (i !== -1) s[i] = x;`: the first element
   * satisfying `p` becomes `x`; with no match nothing changes.
   */
  function ReplaceFirst<T>(s: seq<T>, p: T -> bool, x: T): (r: seq<T>)
    ensures |r| == |s|
    ensures forall i | IsFirstMatch(s, p, i) :: r[i] == x
    ensures forall i | 0 <= i < |s| && !IsFirstMatch(s, p, i) :: r[i] == s[i]
    ensures (forall j | 0 <= j < |s| :: !p(s[j])) ==> r == s
  {
    match FindIndex(s, p)
    case None => s
    case Some(i) =>
      assert IsFirstMatch(s, p, i);
      s[i := x]
  }

  /** `s.filter((_, j) => j !== i)`: position `i` is removed when it exists. */
  function RemoveAt<T>(s: seq<T>, i: int): (r: seq<T>)
    ensures !(0 <= i < |s|) ==> r == s
    ensures 0 <= i < |s| ==> |r| == |s| - 1
    ensures forall j | 0 <= j < i && j < |r| :: r[j] == s[j]
    ensures 0 <= i < |s| ==> forall j | i <= j < |r| :: r[j] == s[j + 1]
  {
    if 0 <= i < |s| then s[..i] + s[i + 1..] else s
  }

  /** Removing position `i` takes away exactly one copy of `s[i]` and nothing else. */
  lemma RemoveAtMultiset<T>(s: seq<T>, i: int)
    ensures 0 <= i < |s| ==> multiset(RemoveAt(s, i)) + multiset{s[i]} == multiset(s)
  {
    if 0 <= i < |s| {
      assert s == s[..i] + [s[i]] + s[i + 1..];
    }
  }

  /** `s.slice(0, n)` for a non-negative `n`. */
  function Take<T>(s: seq<T>, n: nat): (r: seq<T>)
    ensures |r| == if n < |s| then n else |s|
    ensures forall j | 0 <= j < |r| :: r[j] == s[j]
  {
    if n < |s| then s[..n] else s
  }

  /** `s.map(f)`. */
  function Map<T, U>(s: seq<T>, f: T -> U): (r: seq<U>)
    ensures |r| == |s|
    ensures forall j | 0 <= j < |s| :: r[j] == f(s[j])
  {
    seq(|s|, j requires 0 <= j < |s| => f(s[j]))
  }
}
