/**
 * `[...s].sort(cmp)`: the client copies a list and sorts the copy in place.
 * The comparator is given as the "may come first" relation `le`, which must
 * be a total preorder; the result is ordered by it and is a permutation of
 * the input. Which of two equivalent elements comes first is not promised.
 */
module Sorting {

  /** `le` relates every pair one way or the other and is transitive. */
  ghost predicate TotalPreorder<T(!new)>(le: (T, T) -> bool) {
    && (forall x, y :: le(x, y) || le(y, x))
    && (forall x, y, z :: le(x, y) && le(y, z) ==> le(x, z))
  }

  /** Every element may come before every later one. */
  ghost predicate SortedBy<T>(s: seq<T>, le: (T, T) -> bool) {
    forall i, j :: 0 <= i < j < |s| ==> le(s[i], s[j])
  }

  /**
   * The state of one insertion step: `s[..n+1]` is sorted except that the
   * element at `j` is still sinking; it may already precede everything after it.
   */
  ghost predicate Sinking<T>(s: seq<T>, j: int, n: int, le: (T, T) -> bool)
    requires 0 <= j <= n < |s|
  {
    && (forall p, q :: 0 <= p < q <= n && p != j && q != j ==> le(s[p], s[q]))
    && (forall q :: j < q <= n ==> le(s[j], s[q]))
  }

  /** A sorted prefix plus the next element is a sinking state at that element. */
  lemma SinkStart<T>(s: seq<T>, n: int, le: (T, T) -> bool)
    requires 0 <= n < |s| && SortedBy(s[..n], le)
    ensures Sinking(s, n, n, le)
  {
    forall p, q | 0 <= p < q <= n && p != n && q != n ensures le(s[p], s[q]) {
      assert s[p] == s[..n][p] && s[q] == s[..n][q];
    }
  }

  /** Swapping the sinking element with a left neighbour that may not precede it moves the sinking point left. */
  lemma SinkStep<T(!new)>(s: seq<T>, j: int, n: int, le: (T, T) -> bool)
    requires TotalPreorder(le)
    requires 0 < j <= n < |s| && Sinking(s, j, n, le) && !le(s[j - 1], s[j])
    ensures Sinking(s[j - 1 := s[j]][j := s[j - 1]], j - 1, n, le)
  {
    var t := s[j - 1 := s[j]][j := s[j - 1]];
    assert le(s[j], s[j - 1]);
    forall q | j - 1 < q <= n ensures le(t[j - 1], t[q]) {
      if q > j {
        assert le(s[j], s[q]);
      }
    }
    forall p, q | 0 <= p < q <= n && p != j - 1 && q != j - 1 ensures le(t[p], t[q]) {
      if q == j {
        assert t[q] == s[j - 1];
        assert le(s[p], s[j - 1]);
      } else if p == j {
        assert t[p] == s[j - 1];
        assert le(s[j - 1], s[q]);
      }
    }
  }

  /** Once the sinking element may follow its left neighbour, the prefix through `n` is sorted. */
  lemma SinkDone<T(!new)>(s: seq<T>, j: int, n: int, le: (T, T) -> bool)
    requires TotalPreorder(le)
    requires 0 <= j <= n < |s| && Sinking(s, j, n, le) && (j == 0 || le(s[j - 1], s[j]))
    ensures SortedBy(s[..n + 1], le)
  {
    forall p, q | 0 <= p < q <= n ensures le(s[p], s[q]) {
      if q == j && p < j - 1 {
        assert le(s[p], s[j - 1]);
      }
    }
  }

  /** Swapping two positions keeps the same elements. */
  lemma SwapKeepsElements<T>(s: seq<T>, i: int, j: int)
    requires 0 <= i < |s| && 0 <= j < |s|
    ensures multiset(s[i := s[j]][j := s[i]]) == multiset(s)
  {
  }

  /** Copies `s` into a fresh array, sorts it in place by insertion, and returns its contents. */
  method SortedCopy<T(!new)>(s: seq<T>, le: (T, T) -> bool) returns (r: seq<T>)
    requires TotalPreorder(le)
    ensures SortedBy(r, le)
    ensures multiset(r) == multiset(s)
  {
    var a := new T[|s|](i requires 0 <= i < |s| => s[i]);
    assert a[..] == s;
    var n := 0;
    while n < a.Length
      invariant 0 <= n <= a.Length
      invariant SortedBy(a[..n], le)
      invariant multiset(a[..]) == multiset(s)
    {
      // Sink a[n] leftwards until its left neighbour may precede it.
      SinkStart(a[..], n, le);
      var j := n;
      while j > 0 && !le(a[j - 1], a[j])
        invariant 0 <= j <= n < a.Length
        invariant Sinking(a[..], j, n, le)
        invariant multiset(a[..]) == multiset(s)
      {
        ghost var before := a[..];
        a[j - 1], a[j] := a[j], a[j - 1];
        assert a[..] == before[j - 1 := before[j]][j := before[j - 1]];
        SinkStep(before, j, n, le);
        SwapKeepsElements(before, j - 1, j);
        j := j - 1;
      }
      SinkDone(a[..], j, n, le);
      n := n + 1;
    }
    assert a[..a.Length] == a[..];
    r := a[..];
  }
}
