/**
 * The `std::sort` calls of the query code, which order hits by distance
 * (`_querySort`, `_queryManySort`: `a.distance < b.distance`). The model
 * sorts in place by insertion; `std::sort` leaves the order of equal
 * distances unspecified, so only sortedness and permutation are promised.
 */
module Sorting {

  /** `s` is non-decreasing under `key`. */
  predicate SortedBy<T>(s: seq<T>, key: T -> real) {
    forall i, j :: 0 <= i < j < |s| ==> key(s[i]) <= key(s[j])
  }

  /** `s` with its entries `j - 1` and `j` exchanged. */
  function Swap<T>(s: seq<T>, j: nat): seq<T>
    requires 0 < j < |s|
  {
    s[j - 1 := s[j]][j := s[j - 1]]
  }

  /** Exchanging two neighbours keeps the multiset of elements. */
  lemma SwapKeepsElements<T>(s: seq<T>, j: nat)
    requires 0 < j < |s|
    ensures multiset(Swap(s, j)) == multiset(s)
  {
    var t := Swap(s, j);
    assert s == s[..j - 1] + [s[j - 1], s[j]] + s[j + 1..];
    assert t == s[..j - 1] + [s[j], s[j - 1]] + s[j + 1..];
  }

  /**
   * While `s[j]` sinks into `s[..i + 1]`: the other entries of that prefix
   * are in order, and `s[j]` is no greater than anything after it.
   */
  predicate Sinking<T>(s: seq<T>, i: nat, j: nat, key: T -> real)
    requires j <= i < |s|
  {
    && (forall k, l :: 0 <= k < l <= i && k != j && l != j ==> key(s[k]) <= key(s[l]))
    && (forall l :: j < l <= i ==> key(s[j]) <= key(s[l]))
  }

  lemma SinkStart<T>(s: seq<T>, i: nat, key: T -> real)
    requires i < |s| && SortedBy(s[..i], key)
    ensures Sinking(s, i, i, key)
  {
    forall k, l | 0 <= k < l <= i && k != i && l != i
      ensures key(s[k]) <= key(s[l])
    {
      assert s[k] == s[..i][k] && s[l] == s[..i][l];
    }
  }

  lemma SinkStep<T>(s: seq<T>, i: nat, j: nat, key: T -> real)
    requires 0 < j <= i < |s| && Sinking(s, i, j, key)
    requires key(s[j - 1]) > key(s[j])
    ensures Sinking(Swap(s, j), i, j - 1, key)
  {
  }

  lemma SinkDone<T>(s: seq<T>, i: nat, j: nat, key: T -> real)
    requires j <= i < |s| && Sinking(s, i, j, key)
    requires j == 0 || key(s[j - 1]) <= key(s[j])
    ensures SortedBy(s[..i + 1], key)
  {
    var t := s[..i + 1];
    forall k, l | 0 <= k < l < |t|
      ensures key(t[k]) <= key(t[l])
    {
      if l == j && k < j - 1 {
        assert key(s[k]) <= key(s[j - 1]);
      }
    }
  }

  /** Sinks `a[i]` into the sorted prefix `a[..i]`. */
  method InsertAt<T>(a: array<T>, i: nat, key: T -> real)
    requires i < a.Length
    requires SortedBy(a[..i], key)
    modifies a
    ensures SortedBy(a[..i + 1], key)
    ensures a[i + 1..] == old(a[i + 1..])
    ensures multiset(a[..]) == multiset(old(a[..]))
  {
    var j := i;
    SinkStart(a[..], i, key);
    while j > 0 && key(a[j - 1]) > key(a[j])
      invariant 0 <= j <= i
      invariant Sinking(a[..], i, j, key)
      invariant a[i + 1..] == old(a[i + 1..])
      invariant multiset(a[..]) == multiset(old(a[..]))
    {
      ghost var s := a[..];
      SinkStep(s, i, j, key);
      SwapKeepsElements(s, j);
      a[j - 1], a[j] := a[j], a[j - 1];
      assert a[..] == Swap(s, j);
      j := j - 1;
    }
    SinkDone(a[..], i, j, key);
  }

  method SortByKey<T>(a: array<T>, key: T -> real)
    modifies a
    ensures SortedBy(a[..], key)
    ensures multiset(a[..]) == multiset(old(a[..]))
  {
    var i := 0;
    while i < a.Length
      invariant 0 <= i <= a.Length
      invariant SortedBy(a[..i], key)
      invariant multiset(a[..]) == multiset(old(a[..]))
    {
      InsertAt(a, i, key);
      i := i + 1;
    }
    assert a[..a.Length] == a[..];
  }

  /** Sorts a sequence by way of an array, as the query code sorts its vectors. */
  method SortSeq<T>(s: seq<T>, key: T -> real) returns (r: seq<T>)
    ensures SortedBy(r, key)
    ensures multiset(r) == multiset(s)
  {
    if |s| == 0 {
      return [];
    }
    var a := new T[|s|](i requires 0 <= i < |s| => s[i]);
    assert a[..] == s;
    SortByKey(a, key);
    r := a[..];
  }
}
