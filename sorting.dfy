/**
 * Python's `list.sort(key=k, reverse=True)` on a list of candidate dictionaries:
 * keys are tuples of floats compared lexicographically, and the list ends up in
 * non-increasing key order, rearranged in place.
 */
module Sorting {

  import opened Records

  /** Python tuple comparison `a >= b` on tuples of floats. */
  predicate LexGe(a: seq<real>, b: seq<real>)
  {
    if b == [] then true
    else if a == [] then false
    else if a[0] != b[0] then a[0] > b[0]
    else LexGe(a[1..], b[1..])
  }

  lemma {:induction false} LexGeTotal(a: seq<real>, b: seq<real>)
    ensures LexGe(a, b) || LexGe(b, a)
  {
    if a != [] && b != [] && a[0] == b[0] {
      LexGeTotal(a[1..], b[1..]);
    }
  }

  lemma {:induction false} LexGeTransitive(a: seq<real>, b: seq<real>, c: seq<real>)
    requires LexGe(a, b) && LexGe(b, c)
    ensures LexGe(a, c)
  {
    if a != [] && b != [] && c != [] && a[0] == b[0] && b[0] == c[0] {
      LexGeTransitive(a[1..], b[1..], c[1..]);
    }
  }

  /** Every element's key is at least the key of every element after it. */
  ghost predicate SortedDesc(s: seq<Candidate>, key: Candidate -> seq<real>)
  {
    forall i, j :: 0 <= i < j < |s| ==> LexGe(key(s[i]), key(s[j]))
  }

  /**
   * Insertion sort, the in-place `sort(key=key, reverse=True)`: the array ends up
   * ordered by key, non-increasing, and holds the same candidates as before.
   * An element moves in front of another only when its key is strictly larger,
   * so equal keys keep their relative order as Python's stable sort does.
   */
  method SortDesc(a: array<Candidate>, key: Candidate -> seq<real>)
    modifies a
    ensures SortedDesc(a[..], key)
    ensures multiset(a[..]) == multiset(old(a[..]))
  {
    if a.Length == 0 {
      return;
    }
    var i := 1;
    while i < a.Length
      invariant 1 <= i <= a.Length
      invariant SortedDesc(a[..i], key)
      invariant multiset(a[..]) == multiset(old(a[..]))
    {
      InsertLast(a, key, i);
      i := i + 1;
    }
    assert a[..a.Length] == a[..];
  }

  /** One insertion-sort pass: moves a[i] left past every element with a strictly smaller key. */
  method InsertLast(a: array<Candidate>, key: Candidate -> seq<real>, i: int)
    requires 1 <= i < a.Length && SortedDesc(a[..i], key)
    modifies a
    ensures SortedDesc(a[..i + 1], key)
    ensures multiset(a[..]) == multiset(old(a[..]))
  {
    StartSinking(a[..], i, key);
    var j := i;
    while j > 0 && !LexGe(key(a[j - 1]), key(a[j]))
      invariant 0 <= j <= i
      invariant Sinking(a[..], j, i, key)
      invariant multiset(a[..]) == multiset(old(a[..]))
    {
      ghost var s := a[..];
      SinkStep(s, j, i, key);
      a[j - 1], a[j] := a[j], a[j - 1];
      assert a[..] == s[j - 1 := s[j]][j := s[j - 1]];
      j := j - 1;
    }
    FinishSinking(a[..], j, i, key);
  }

  /**
   * Partway through a pass that inserts s[i] into the sorted s[..i]: the inserted element
   * sits at j, the rest of s[..i + 1] is still in order, and nothing after j has a larger key.
   */
  ghost predicate Sinking(s: seq<Candidate>, j: int, i: int, key: Candidate -> seq<real>)
  {
    && 0 <= j <= i < |s|
    && (forall p, q :: 0 <= p < q <= i && p != j && q != j ==> LexGe(key(s[p]), key(s[q])))
    && (forall q :: j < q <= i ==> LexGe(key(s[j]), key(s[q])))
  }

  lemma StartSinking(s: seq<Candidate>, i: int, key: Candidate -> seq<real>)
    requires 0 <= i < |s| && SortedDesc(s[..i], key)
    ensures Sinking(s, i, i, key)
  {
    forall p, q | 0 <= p < q <= i && p != i && q != i
      ensures LexGe(key(s[p]), key(s[q]))
    {
      assert s[..i][p] == s[p] && s[..i][q] == s[q];
    }
  }

  /** Swapping the inserted element with a predecessor of strictly smaller key keeps the pass going. */
  lemma SinkStep(s: seq<Candidate>, j: int, i: int, key: Candidate -> seq<real>)
    requires Sinking(s, j, i, key) && j > 0 && !LexGe(key(s[j - 1]), key(s[j]))
    ensures Sinking(s[j - 1 := s[j]][j := s[j - 1]], j - 1, i, key)
  {
    var t := s[j - 1 := s[j]][j := s[j - 1]];
    LexGeTotal(key(s[j - 1]), key(s[j]));
    forall p, q | 0 <= p < q <= i && p != j - 1 && q != j - 1
      ensures LexGe(key(t[p]), key(t[q]))
    {
      if p == j {
        assert t[p] == s[j - 1] && t[q] == s[q];
      } else if q == j {
        assert t[p] == s[p] && t[q] == s[j - 1];
      } else {
        assert t[p] == s[p] && t[q] == s[q];
      }
    }
    forall q | j - 1 < q <= i
      ensures LexGe(key(t[j - 1]), key(t[q]))
    {
      if q != j {
        assert t[q] == s[q];
      }
    }
  }

  /** Once the predecessor's key is no smaller, or the front is reached, s[..i + 1] is sorted. */
  lemma FinishSinking(s: seq<Candidate>, j: int, i: int, key: Candidate -> seq<real>)
    requires Sinking(s, j, i, key) && (j > 0 ==> LexGe(key(s[j - 1]), key(s[j])))
    ensures SortedDesc(s[..i + 1], key)
  {
    var r := s[..i + 1];
    forall p, q | 0 <= p < q < |r|
      ensures LexGe(key(r[p]), key(r[q]))
    {
      assert r[p] == s[p] && r[q] == s[q];
      if q == j && p < j - 1 {
        LexGeTransitive(key(s[p]), key(s[j - 1]), key(s[j]));
      }
    }
  }
}
