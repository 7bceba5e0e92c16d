/**
  The sort of the scan's points by time offset at imu_processor.cpp lines 65-66. The
  offset is carried in the curvature field, so the comparison is on curvature. The
  model is an insertion sort, which meets what the call promises: the result is
  ordered and a permutation of the input. Which of several equal points comes first
  is not promised.
 */
module CloudSort {
  import opened Sensors

  predicate SortedByCurvature(s: seq<Point>)
  {
    forall i, j :: 0 <= i < j < |s| ==> s[i].curvature <= s[j].curvature
  }

  /** Points ordered by curvature are ordered by time offset. */
  lemma SortedByCurvatureIsByOffset(s: seq<Point>)
    requires SortedByCurvature(s)
    ensures SortedByOffset(s)
  {
    forall i, j | 0 <= i <= j < |s|
      ensures Offset(s[i]) <= Offset(s[j])
    {
      if i < j {
        assert s[i].curvature <= s[j].curvature;
      }
    }
  }

  /** The prefix s[..hi + 1] is ordered apart from the point at j, which is no later than anything after it. */
  predicate OrderedExceptAt(s: seq<Point>, hi: nat, j: nat)
    requires hi < |s|
  {
    && (forall k, l :: 0 <= k < l <= hi && k != j && l != j ==> s[k].curvature <= s[l].curvature)
    && (forall l :: j < l <= hi ==> s[j].curvature <= s[l].curvature)
  }

  lemma SwapKeepsOrder(s: seq<Point>, hi: nat, j: nat)
    requires 0 < j <= hi < |s| && OrderedExceptAt(s, hi, j)
    requires s[j - 1].curvature > s[j].curvature
    ensures OrderedExceptAt(s[j - 1 := s[j]][j := s[j - 1]], hi, j - 1)
  {
  }

  lemma SwapPermutes(s: seq<Point>, j: nat)
    requires 0 < j < |s|
    ensures multiset(s[j - 1 := s[j]][j := s[j - 1]]) == multiset(s)
  {
  }

  lemma InsertionDone(s: seq<Point>, hi: nat, j: nat)
    requires j <= hi < |s| && OrderedExceptAt(s, hi, j)
    requires j == 0 || s[j - 1].curvature <= s[j].curvature
    ensures SortedByCurvature(s[..hi + 1])
  {
    forall k, l | 0 <= k < l <= hi
      ensures s[k].curvature <= s[l].curvature
    {
      if l == j {
        assert k == j - 1 || s[k].curvature <= s[j - 1].curvature;
      }
    }
  }

  /** One pass of the inner loop: a[i] sinks into the ordered prefix a[..i]. */
  method Insert(a: array<Point>, i: nat)
    requires 1 <= i < a.Length && SortedByCurvature(a[..i])
    modifies a
    ensures SortedByCurvature(a[..i + 1])
    ensures multiset(a[..]) == multiset(old(a[..]))
  {
    var j := i;
    assert forall k :: 0 <= k < i ==> a[k] == a[..i][k];
    while j > 0 && a[j - 1].curvature > a[j].curvature
      invariant 0 <= j <= i && OrderedExceptAt(a[..], i, j)
      invariant multiset(a[..]) == multiset(old(a[..]))
    {
      ghost var s := a[..];
      SwapKeepsOrder(s, i, j);
      SwapPermutes(s, j);
      a[j - 1], a[j] := a[j], a[j - 1];
      assert a[..] == s[j - 1 := s[j]][j := s[j - 1]];
      j := j - 1;
    }
    InsertionDone(a[..], i, j);
    assert a[..][..i + 1] == a[..i + 1];
  }

  method SortByCurvature(a: array<Point>)
    modifies a
    ensures SortedByCurvature(a[..])
    ensures multiset(a[..]) == multiset(old(a[..]))
  {
    if a.Length == 0 {
      return;
    }
    var i := 1;
    while i < a.Length
      invariant 1 <= i <= a.Length
      invariant SortedByCurvature(a[..i])
      invariant multiset(a[..]) == multiset(old(a[..]))
    {
      Insert(a, i);
      i := i + 1;
    }
    assert a[..i] == a[..];
  }
}
