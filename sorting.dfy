/**
 * An in-place insertion sort over any comparator, specified by a
 * key function the comparator is the difference of.
 */
module Sorting {
  /** Positions `lo <= p < q < hi` of `s` are in order of `key`. */
  predicate SortedBy<T>(key: T -> int, s: seq<T>, lo: int, hi: int)
    requires 0 <= lo <= hi <= |s|
  {
    forall p, q :: lo <= p < q < hi ==> key(s[p]) <= key(s[q])
  }

  /**
   * What holds while element `s[j]`, taken from position `i`, moves left:
   * both parts around it are in order, the left part is below the right
   * part, and the moving element is strictly below everything it has passed.
   */
  predicate Sinking<T>(key: T -> int, s: seq<T>, j: int, i: int)
    requires 0 <= j <= i < |s|
  {
    && SortedBy(key, s, 0, j)
    && SortedBy(key, s, j + 1, i + 1)
    && (forall p, q :: 0 <= p < j < q <= i ==> key(s[p]) <= key(s[q]))
    && (forall q :: j < q <= i ==> key(s[j]) < key(s[q]))
  }

  /** Swapping the moving element with a greater left neighbour keeps `Sinking` one place further left. */
  lemma SinkStep<T>(key: T -> int, s: seq<T>, j: int, i: int)
    requires 0 < j <= i < |s|
    requires Sinking(key, s, j, i)
    requires key(s[j - 1]) > key(s[j])
    ensures Sinking(key, s[j - 1 := s[j]][j := s[j - 1]], j - 1, i)
    ensures multiset(s[j - 1 := s[j]][j := s[j - 1]]) == multiset(s)
  {
    var t := s[j - 1 := s[j]][j := s[j - 1]];
    SwapPermutes(s, j - 1, j);
    forall p, q | 0 <= p < q < j - 1
      ensures key(t[p]) <= key(t[q])
    {
      assert t[p] == s[p] && t[q] == s[q];
    }
    forall p, q | j <= p < q < i + 1
      ensures key(t[p]) <= key(t[q])
    {
      assert t[q] == s[q];
      if p == j {
        assert key(s[j - 1]) <= key(s[q]);
      } else {
        assert t[p] == s[p];
      }
    }
    forall p, q | 0 <= p < j - 1 < q <= i
      ensures key(t[p]) <= key(t[q])
    {
      assert t[p] == s[p];
      if q == j {
        assert key(s[p]) <= key(s[j - 1]);
      } else {
        assert t[q] == s[q];
      }
    }
    forall q | j - 1 < q <= i
      ensures key(t[j - 1]) < key(t[q])
    {
      if q > j {
        assert t[q] == s[q];
      }
    }
  }

  /** The moving element has stopped: the first `i + 1` positions are in order. */
  lemma SinkDone<T>(key: T -> int, s: seq<T>, j: int, i: int)
    requires 0 <= j <= i < |s|
    requires Sinking(key, s, j, i)
    requires j == 0 || key(s[j - 1]) <= key(s[j])
    ensures SortedBy(key, s, 0, i + 1)
  {
    forall p, q | 0 <= p < q < i + 1
      ensures key(s[p]) <= key(s[q])
    {
      if q == j && p < j - 1 {
        assert key(s[p]) <= key(s[j - 1]);
      }
    }
  }

  /** Swapping two positions keeps the multiset of elements. */
  lemma SwapPermutes<T>(s: seq<T>, i: nat, j: nat)
    requires i < |s| && j < |s|
    ensures multiset(s[i := s[j]][j := s[i]]) == multiset(s)
  {
    var t := s[i := s[j]];
    assert multiset(t) == multiset(s) - multiset{s[i]} + multiset{s[j]};
  }

  /** `cmp` is the difference of `key` on every pair of elements of `s`. */
  ghost predicate KeyDifference<T>(cmp: (T, T) -> int, key: T -> int, s: seq<T>)
  {
    forall x, y :: x in s && y in s ==> cmp(x, y) == key(x) - key(y)
  }

  /** The pointwise reading of `KeyDifferenceKept`: two positions of a permutation compare by key. */
  lemma KeyDifferencePermuted<T>(cmp: (T, T) -> int, key: T -> int, s: seq<T>, original: seq<T>, p: int, q: int)
    requires multiset(s) == multiset(original) && KeyDifference(cmp, key, original)
    requires 0 <= p < |s| && 0 <= q < |s|
    ensures cmp(s[p], s[q]) == key(s[p]) - key(s[q])
  {
    KeyDifferenceKept(cmp, key, s, original);
    assert s[p] in s && s[q] in s;
  }

  /**
   * An in-place sort by the comparator `cmp`, as an insertion sort: a
   * permutation, in order of `key` when `cmp` is its difference, and
   * untouched when `cmp` never asks for a swap.
   */
  method InsertionSort<T(==,!new)>(a: array<T>, cmp: (T, T) -> int, ghost key: T -> int)
    modifies a
    ensures multiset(a[..]) == multiset(old(a[..]))
    ensures KeyDifference(cmp, key, old(a[..])) ==> SortedBy(key, a[..], 0, a.Length)
    ensures NeverPositive(cmp) ==> a[..] == old(a[..])
  {
    ghost var consistent := KeyDifference(cmp, key, a[..]);
    ghost var still := NeverPositive(cmp);
    var i := 0;
    while i < a.Length
      invariant 0 <= i <= a.Length
      invariant multiset(a[..]) == multiset(old(a[..]))
      invariant consistent ==> KeyDifference(cmp, key, a[..]) && SortedBy(key, a[..], 0, i)
      invariant still ==> a[..] == old(a[..])
    {
      ghost var before := a[..];
      Sink(a, cmp, key, i, consistent, still);
      if consistent {
        KeyDifferenceKept(cmp, key, a[..], before);
      }
      i := i + 1;
    }
  }

  /** `KeyDifference` carries over to a permutation. */
  lemma KeyDifferenceKept<T>(cmp: (T, T) -> int, key: T -> int, s: seq<T>, original: seq<T>)
    requires multiset(s) == multiset(original) && KeyDifference(cmp, key, original)
    ensures KeyDifference(cmp, key, s)
  {
    forall x, y | x in s && y in s ensures cmp(x, y) == key(x) - key(y) {
      assert x in multiset(original) && y in multiset(original);
    }
  }

  /** `cmp` never asks for a swap. */
  ghost predicate NeverPositive<T(!new)>(cmp: (T, T) -> int)
  {
    forall x, y :: cmp(x, y) <= 0
  }

  /** One pass of the insertion sort: `a[i]` moves left past every element `cmp` puts after it. */
  method Sink<T(==,!new)>(a: array<T>, cmp: (T, T) -> int, ghost key: T -> int, i: int,
                     ghost consistent: bool, ghost still: bool)
    requires 0 <= i < a.Length
    requires consistent ==> KeyDifference(cmp, key, a[..]) && SortedBy(key, a[..], 0, i)
    requires still ==> NeverPositive(cmp)
    modifies a
    ensures multiset(a[..]) == multiset(old(a[..]))
    ensures consistent ==> SortedBy(key, a[..], 0, i + 1)
    ensures still ==> a[..] == old(a[..])
  {
    ghost var original := a[..];
    var j := i;
    while j > 0 && cmp(a[j - 1], a[j]) > 0
      invariant 0 <= j <= i
      invariant multiset(a[..]) == multiset(original)
      invariant consistent ==> Sinking(key, a[..], j, i)
      invariant still ==> a[..] == original
    {
      SwapDown(a, cmp, key, j, i, consistent, original);
      j := j - 1;
    }
    if consistent {
      if j > 0 {
        KeyDifferencePermuted(cmp, key, a[..], original, j - 1, j);
      }
      SinkDone(key, a[..], j, i);
    }
  }

  /** The swap `cmp` asks for: `a[j - 1]` and `a[j]` change places. */
  method SwapDown<T(==)>(a: array<T>, cmp: (T, T) -> int, ghost key: T -> int, j: int, i: int,
                         ghost consistent: bool, ghost original: seq<T>)
    requires 0 < j <= i < a.Length
    requires cmp(a[j - 1], a[j]) > 0
    requires multiset(a[..]) == multiset(original)
    requires consistent ==> KeyDifference(cmp, key, original) && Sinking(key, a[..], j, i)
    modifies a
    ensures a[..] == old(a[..])[j - 1 := old(a[j])][j := old(a[j - 1])]
    ensures multiset(a[..]) == multiset(original)
    ensures consistent ==> Sinking(key, a[..], j - 1, i)
  {
    ghost var before := a[..];
    if consistent {
      KeyDifferencePermuted(cmp, key, before, original, j - 1, j);
      SinkStep(key, before, j, i);
    } else {
      SwapPermutes(before, j - 1, j);
    }
    a[j - 1], a[j] := a[j], a[j - 1];
    assert a[..] == before[j - 1 := before[j]][j := before[j - 1]];
  }
}
