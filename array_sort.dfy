/** `Array.prototype.sort` with a comparator of the form `(a, b) => key(a) - key(b)`,
    as the listing and home pages call it: the array is reordered in place. */
module ArraySort {
  import opened Types

  /** Keys never decrease along `s`. */
  ghost predicate SortedByKey(s: seq<Product>, key: Product -> int) {
    forall i, j :: 0 <= i < j < |s| ==> key(s[i]) <= key(s[j])
  }

  /** Swapping two neighbours keeps the multiset of elements. */
  lemma SwapKeepsMultiset(s: seq<Product>, j: nat)
    requires 0 < j < |s|
    ensures multiset(s[j - 1 := s[j]][j := s[j - 1]]) == multiset(s)
  {
    var t := s[j - 1 := s[j]][j := s[j - 1]];
    assert s == s[..j - 1] + [s[j - 1], s[j]] + s[j + 1..];
    assert t == s[..j - 1] + [s[j], s[j - 1]] + s[j + 1..];
  }

  /** Sorts `a` in place by ascending key (an insertion sort by adjacent swaps). */
  method SortInPlace(a: array<Product>, key: Product -> int)
    modifies a
    ensures SortedByKey(a[..], key)
    ensures multiset(a[..]) == multiset(old(a[..]))
  {
    if a.Length == 0 {
      return;
    }
    var i := 1;
    while i < a.Length
      invariant 1 <= i <= a.Length
      invariant forall m, n :: 0 <= m < n < i ==> key(a[m]) <= key(a[n])
      invariant multiset(a[..]) == multiset(old(a[..]))
    {
      Insert(a, key, i);
      i := i + 1;
    }
  }

  /** The state of one insertion step: the element being inserted sits at `j`, and the
      rest of `s[..i + 1]` is in order with everything right of `j` no smaller than it. */
  ghost predicate Inserting(s: seq<Product>, key: Product -> int, i: nat, j: nat) {
    j <= i < |s| &&
    (forall m, n :: 0 <= m < n <= i && m != j && n != j ==> key(s[m]) <= key(s[n])) &&
    (forall n :: j < n <= i ==> key(s[j]) <= key(s[n]))
  }

  /** Swapping the inserted element with a larger left neighbour keeps the step's state. */
  lemma SwapStep(s: seq<Product>, key: Product -> int, i: nat, j: nat)
    requires Inserting(s, key, i, j) && 0 < j && key(s[j - 1]) > key(s[j])
    ensures Inserting(s[j - 1 := s[j]][j := s[j - 1]], key, i, j - 1)
    ensures multiset(s[j - 1 := s[j]][j := s[j - 1]]) == multiset(s)
  {
    SwapKeepsMultiset(s, j);
  }

  /** At the start of a step the inserted element is the last of the prefix. */
  lemma StepStart(s: seq<Product>, key: Product -> int, i: nat)
    requires i < |s| && forall m, n :: 0 <= m < n < i ==> key(s[m]) <= key(s[n])
    ensures Inserting(s, key, i, i)
  {
  }

  /** The step ends when the left neighbour is no larger: the prefix is in order. */
  lemma StepDone(s: seq<Product>, key: Product -> int, i: nat, j: nat)
    requires Inserting(s, key, i, j) && (j == 0 || key(s[j - 1]) <= key(s[j]))
    ensures forall m, n :: 0 <= m < n <= i ==> key(s[m]) <= key(s[n])
  {
    forall m, n | 0 <= m < n <= i
      ensures key(s[m]) <= key(s[n])
    {
      if n == j && m < j - 1 {
        assert key(s[m]) <= key(s[j - 1]);
      }
    }
  }

  /** Exchanges `a[j]` with its left neighbour. */
  method SwapBack(a: array<Product>, j: nat)
    requires 0 < j < a.Length
    modifies a
    ensures a[..] == old(a[..])[j - 1 := old(a[j])][j := old(a[j - 1])]
  {
    a[j - 1], a[j] := a[j], a[j - 1];
  }

  /** One insertion step: moves `a[i]` left past every larger key, so that the sorted
      prefix `a[..i]` grows to `a[..i + 1]`. */
  method Insert(a: array<Product>, key: Product -> int, i: nat)
    requires i < a.Length
    requires forall m, n :: 0 <= m < n < i ==> key(a[m]) <= key(a[n])
    modifies a
    ensures forall m, n :: 0 <= m < n <= i ==> key(a[m]) <= key(a[n])
    ensures multiset(a[..]) == multiset(old(a[..]))
  {
    var j: nat := i;
    StepStart(a[..], key, i);
    while j > 0 && key(a[j - 1]) > key(a[j])
      invariant Inserting(a[..], key, i, j)
      invariant multiset(a[..]) == multiset(old(a[..]))
    {
      SwapStep(a[..], key, i, j);
      SwapBack(a, j);
      j := j - 1;
    }
    StepDone(a[..], key, i, j);
  }
}
