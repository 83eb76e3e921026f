/** The array idioms the storefront is written in -- `filter`, `find` and `slice(0, n)` --
    stated once over sequences, with the facts the callers rely on. */
module Seqs {
  import opened Wrappers

  /** `a` is obtained from `b` by deleting elements, keeping the order of the rest. */
  ghost predicate IsSubsequence<T>(a: seq<T>, b: seq<T>)
    decreases |b|
  {
    |a| == 0 ||
    (|b| > 0 && ((a[0] == b[0] && IsSubsequence(a[1..], b[1..])) || IsSubsequence(a, b[1..])))
  }

  /** `s.filter(f)`: the elements of `s` that satisfy `f`, in their order in `s`. */
  function Filter<T(==,!new)>(s: seq<T>, f: T -> bool): (r: seq<T>)
    ensures |r| <= |s|
    ensures forall x :: x in r <==> x in s && f(x)
    decreases |s|
  {
    if |s| == 0 then []
    else
      var rest := Filter(s[1..], f);
      assert s == [s[0]] + s[1..];
      if f(s[0]) then [s[0]] + rest else rest
  }

  /** A filter keeps every occurrence of a passing element and none of a failing one. */
  lemma {:induction false} FilterMultiset<T(!new)>(s: seq<T>, f: T -> bool)
    ensures forall x :: multiset(Filter(s, f))[x] == if f(x) then multiset(s)[x] else 0
    decreases |s|
  {
    if |s| > 0 {
      var rest := Filter(s[1..], f);
      FilterMultiset(s[1..], f);
      FilterCons(s, f);
      assert s == [s[0]] + s[1..];
      var kept := if f(s[0]) then multiset{s[0]} else multiset{};
      assert multiset(Filter(s, f)) == kept + multiset(rest);
      forall x
        ensures multiset(Filter(s, f))[x] == if f(x) then multiset(s)[x] else 0
      {
        assert multiset(s)[x] == multiset{s[0]}[x] + multiset(s[1..])[x];
      }
    }
  }

  /** A filter deletes elements and keeps the order of the rest. */
  lemma {:induction false} FilterSubsequence<T(!new)>(s: seq<T>, f: T -> bool)
    ensures IsSubsequence(Filter(s, f), s)
    decreases |s|
  {
    if |s| > 0 {
      var rest := Filter(s[1..], f);
      FilterSubsequence(s[1..], f);
      FilterCons(s, f);
      if f(s[0]) {
        assert ([s[0]] + rest)[1..] == rest;
      }
    }
  }

  /** `s.findIndex(f)`, with -1 as `None`: the first index whose element satisfies `f`. */
  function FindIndex<T>(s: seq<T>, f: T -> bool): (r: Option<nat>)
    ensures r.Some? ==> r.value < |s| && f(s[r.value])
    ensures r.Some? ==> forall j :: 0 <= j < r.value ==> !f(s[j])
    ensures r.None? <==> forall j :: 0 <= j < |s| ==> !f(s[j])
    decreases |s|
  {
    if |s| == 0 then None
    else if f(s[0]) then Some(0)
    else match FindIndex(s[1..], f)
      case None => None
      case Some(k) => Some(k + 1)
  }

  /** `s.slice(0, n)`. */
  function Take<T>(s: seq<T>, n: nat): (r: seq<T>)
    ensures |r| == Min(n, |s|)
    ensures r <= s
  {
    if n < |s| then s[..n] else s
  }

  /** A filter whose predicate holds of every element returns its input unchanged. */
  lemma {:induction false} FilterKeepsAll<T(!new)>(s: seq<T>, f: T -> bool)
    requires forall x :: x in s ==> f(x)
    ensures Filter(s, f) == s
    decreases |s|
  {
    if |s| > 0 {
      assert s[0] in s;
      assert forall x :: x in s[1..] ==> x in s;
      FilterKeepsAll(s[1..], f);
      assert s == [s[0]] + s[1..];
    }
  }

  /** Two filters in a row are one filter by the conjunction `h` of their predicates. */
  lemma {:induction false} FilterFilter<T(!new)>(s: seq<T>, f: T -> bool, g: T -> bool, h: T -> bool)
    requires forall x :: h(x) == (f(x) && g(x))
    ensures Filter(Filter(s, f), g) == Filter(s, h)
    decreases |s|
  {
    if |s| > 0 {
      FilterFilter(s[1..], f, g, h);
      if f(s[0]) {
        assert ([s[0]] + Filter(s[1..], f))[1..] == Filter(s[1..], f);
      }
    }
  }

  /** One step of a filter: the head if it passes, then the filtered tail. */
  lemma FilterCons<T(!new)>(s: seq<T>, f: T -> bool)
    requires |s| > 0
    ensures Filter(s, f) == (if f(s[0]) then [s[0]] else []) + Filter(s[1..], f)
  {
  }

  /** A filter distributes over concatenation. */
  lemma {:induction false} FilterConcat<T(!new)>(a: seq<T>, b: seq<T>, f: T -> bool)
    ensures Filter(a + b, f) == Filter(a, f) + Filter(b, f)
    decreases |a|
  {
    if |a| == 0 {
      assert a + b == b;
    } else {
      var ab := a + b;
      assert ab[0] == a[0] && ab[1..] == a[1..] + b;
      FilterConcat(a[1..], b, f);
      FilterCons(ab, f);
      FilterCons(a, f);
      if f(a[0]) {
        assert Filter(ab, f) == [a[0]] + (Filter(a[1..], f) + Filter(b, f));
      } else {
        assert Filter(ab, f) == Filter(a[1..], f) + Filter(b, f);
      }
    }
  }

  /** Filters by two predicates that agree on every value are the same filter. */
  lemma {:induction false} FilterSamePredicate<T(!new)>(s: seq<T>, f: T -> bool, g: T -> bool)
    requires forall x :: f(x) == g(x)
    ensures Filter(s, f) == Filter(s, g)
    decreases |s|
  {
    if |s| > 0 {
      FilterSamePredicate(s[1..], f, g);
    }
  }

  /** The first m elements a filter keeps are everything it keeps from some prefix of its input. */
  lemma {:induction false} FilterPrefix<T(!new)>(s: seq<T>, f: T -> bool, m: nat)
    requires m <= |Filter(s, f)|
    ensures exists n :: 0 <= n <= |s| && Filter(s[..n], f) == Filter(s, f)[..m]
    decreases |s|
  {
    if m == |Filter(s, f)| {
      assert s[..|s|] == s;
      assert Filter(s[..|s|], f) == Filter(s, f)[..m];
    } else {
      var t := s[..|s| - 1];
      assert s == t + [s[|s| - 1]];
      FilterConcat(t, [s[|s| - 1]], f);
      FilterPrefix(t, f, m);
      var n :| 0 <= n <= |t| && Filter(t[..n], f) == Filter(t, f)[..m];
      assert t[..n] == s[..n];
      assert Filter(s[..n], f) == Filter(s, f)[..m];
    }
  }

  /** The first index satisfying `f` is `k` when `s[k]` satisfies it and nothing before does. */
  lemma FindIndexIs<T>(s: seq<T>, f: T -> bool, k: nat)
    requires k < |s| && f(s[k]) && forall j :: 0 <= j < k ==> !f(s[j])
    ensures FindIndex(s, f) == Some(k)
  {
    var r := FindIndex(s, f);
    assert r.Some?;
  }

  /** The first index satisfying `f` in `s + [x]`: the one in `s`, or else `x`'s, or none. */
  lemma FindIndexAppend<T>(s: seq<T>, x: T, f: T -> bool)
    ensures FindIndex(s + [x], f) ==
      if FindIndex(s, f).Some? then FindIndex(s, f)
      else if f(x) then Some(|s|) else None
  {
    var q := FindIndex(s, f);
    var t := s + [x];
    var n := if q.Some? then q.value else |s|;
    forall j | 0 <= j < n
      ensures !f(t[j])
    {
      assert t[j] == s[j];
    }
    if q.Some? {
      assert t[n] == s[n];
      FindIndexIs(t, f, n);
    } else if f(x) {
      assert t[n] == x;
      FindIndexIs(t, f, n);
    } else {
      assert t[n] == x;
    }
  }

  /** Being a subsequence is transitive. */
  lemma {:induction false} SubsequenceTransitive<T>(a: seq<T>, b: seq<T>, c: seq<T>)
    requires IsSubsequence(a, b) && IsSubsequence(b, c)
    ensures IsSubsequence(a, c)
    decreases |c|
  {
    if |a| > 0 {
      assert |b| > 0 && |c| > 0;
      if IsSubsequence(b, c[1..]) {
        SubsequenceTransitive(a, b, c[1..]);
      } else if a[0] == b[0] && IsSubsequence(a[1..], b[1..]) {
        SubsequenceTransitive(a[1..], b[1..], c[1..]);
      } else {
        SubsequenceTransitive(a, b[1..], c[1..]);
      }
    }
  }

  /** Every sequence is a subsequence of itself. */
  lemma {:induction false} SubsequenceReflexive<T>(s: seq<T>)
    ensures IsSubsequence(s, s)
    decreases |s|
  {
    if |s| > 0 {
      SubsequenceReflexive(s[1..]);
    }
  }

  /** A prefix is a subsequence. */
  lemma {:induction false} PrefixIsSubsequence<T>(p: seq<T>, s: seq<T>)
    requires p <= s
    ensures IsSubsequence(p, s)
    decreases |s|
  {
    if |p| > 0 {
      assert p[0] == s[0];
      assert p[1..] <= s[1..];
      PrefixIsSubsequence(p[1..], s[1..]);
    }
  }
}
