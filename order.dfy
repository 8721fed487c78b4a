/**
 * The ordering step of `main`: the files found by the glob are sorted by
 * modification time with an exchange sort, in place, before they are processed.
 * A modification time is an instant, modelled as a whole number of nanoseconds.
 */
module FileOrder {
  /** A matched file and its modification time. */
  datatype FileInfo = FileInfo(path: string, modTime: int)

  /** Oldest first: no file comes after one that was modified later. */
  predicate SortedByModTime(s: seq<FileInfo>) {
    forall i, j :: 0 <= i < j < |s| ==> s[i].modTime <= s[j].modTime
  }

  /** No two files share a modification time. */
  predicate DistinctTimes(s: seq<FileInfo>) {
    forall i, j :: 0 <= i < j < |s| ==> s[i].modTime != s[j].modTime
  }

  /** The exchange `a[i], a[j] = a[j], a[i]`. */
  method Swap(a: array<FileInfo>, i: int, j: int)
    modifies a
    requires 0 <= i < j < a.Length
    ensures a[i] == old(a[j]) && a[j] == old(a[i])
    ensures forall k :: 0 <= k < a.Length && k != i && k != j ==> a[k] == old(a[k])
    ensures multiset(a[..]) == multiset(old(a[..]))
  {
    a[i], a[j] := a[j], a[i];
  }

  /**
   * For each position `i`, every later entry is compared with `a[i]` and the two
   * are exchanged when `a[i]` is strictly later. The result is ordered by
   * modification time and holds the same entries; files with equal times may
   * change their relative order.
   */
  method SortByModTime(a: array<FileInfo>)
    modifies a
    ensures SortedByModTime(a[..])
    ensures multiset(a[..]) == multiset(old(a[..]))
  {
    for i := 0 to a.Length
      invariant multiset(a[..]) == multiset(old(a[..]))
      invariant forall p, q :: 0 <= p < i && p < q < a.Length ==> a[p].modTime <= a[q].modTime
    {
      for j := i + 1 to a.Length
        invariant multiset(a[..]) == multiset(old(a[..]))
        invariant forall p, q :: 0 <= p < i && p < q < a.Length ==> a[p].modTime <= a[q].modTime
        invariant forall q :: i < q < j ==> a[i].modTime <= a[q].modTime
      {
        if a[i].modTime > a[j].modTime {
          Swap(a, i, j);
        }
      }
    }
  }

  // ---------------------------------------------------------------------------
  // With distinct modification times the processing order is fully determined

  /** Removing the same element from two equal multisets leaves equal multisets. */
  lemma MultisetCancel<T>(x: T, a: multiset<T>, b: multiset<T>)
    requires multiset{x} + a == multiset{x} + b
    ensures a == b
  {
    forall y ensures a[y] == b[y] {
      assert (multiset{x} + a)[y] == (multiset{x} + b)[y];
    }
  }

  /** Two orderings of the same files both start with the oldest one. */
  lemma HeadsAgree(s: seq<FileInfo>, t: seq<FileInfo>)
    requires SortedByModTime(s) && SortedByModTime(t)
    requires multiset(s) == multiset(t) && DistinctTimes(s)
    requires s != [] && t != []
    ensures s[0] == t[0]
  {
    assert s[0] in multiset(t);
    var k :| 0 <= k < |t| && t[k] == s[0];
    assert t[0] in multiset(s);
    var m :| 0 <= m < |s| && s[m] == t[0];
    assert s[0].modTime <= s[m].modTime;
    assert t[0].modTime <= t[k].modTime;
  }

  /**
   * When no two files share a modification time there is only one ordering by
   * time, so any sort (this exchange sort or a stable one) yields the same order.
   */
  lemma {:induction false} SortedUnique(s: seq<FileInfo>, t: seq<FileInfo>)
    requires SortedByModTime(s) && SortedByModTime(t)
    requires multiset(s) == multiset(t) && DistinctTimes(s)
    ensures s == t
    decreases |s|
  {
    assert |s| == |multiset(s)| == |multiset(t)| == |t|;
    if s != [] {
      HeadsAgree(s, t);
      var x, s', t' := s[0], s[1..], t[1..];
      assert s == [x] + s' && t == [x] + t';
      MultisetCancel(x, multiset(s'), multiset(t'));
      SortedUnique(s', t');
    }
  }
}
