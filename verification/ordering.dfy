/** Orderings the core relies on: the stable ascending sort of
    `Array.prototype.sort` with a numeric comparator (MoodChart), the
    `orderBy: { createdAt: "desc" }` of the store's queries (sorting on the
    negated key), and the `slice(-n)` window. */
module Ordering {

  ghost predicate SortedBy<T>(s: seq<T>, key: T -> int) {
    forall i, j :: 0 <= i < j < |s| ==> key(s[i]) <= key(s[j])
  }

  /** Places `x` after every element whose key is at most its own: the step of a
      stable insertion sort. */
  function Insert<T>(s: seq<T>, x: T, key: T -> int): (r: seq<T>)
    ensures |r| == |s| + 1
    decreases |s|
  {
    if s == [] then [x]
    else if key(s[|s| - 1]) <= key(x) then s + [x]
    else Insert(s[..|s| - 1], x, key) + [s[|s| - 1]]
  }

  /** Stable sort by ascending key: equal keys keep their input order. */
  function SortBy<T>(s: seq<T>, key: T -> int): (r: seq<T>)
    ensures |r| == |s|
    decreases |s|
  {
    if s == [] then [] else Insert(SortBy(s[..|s| - 1], key), s[|s| - 1], key)
  }

  /** The elements of `s` whose key is `k`, in the order of `s`. */
  function WithKey<T>(s: seq<T>, key: T -> int, k: int): seq<T>
    decreases |s|
  {
    if s == [] then []
    else WithKey(s[..|s| - 1], key, k) + (if key(s[|s| - 1]) == k then [s[|s| - 1]] else [])
  }

  lemma {:induction false} InsertPermutes<T>(s: seq<T>, x: T, key: T -> int)
    ensures multiset(Insert(s, x, key)) == multiset(s) + multiset{x}
    decreases |s|
  {
    if s != [] && key(s[|s| - 1]) > key(x) {
      var init := s[..|s| - 1];
      InsertPermutes(init, x, key);
      assert s == init + [s[|s| - 1]];
    }
  }

  lemma {:induction false} InsertSorted<T>(s: seq<T>, x: T, key: T -> int)
    requires SortedBy(s, key)
    ensures SortedBy(Insert(s, x, key), key)
    decreases |s|
  {
    if s != [] && key(s[|s| - 1]) > key(x) {
      var init, last := s[..|s| - 1], s[|s| - 1];
      InsertSorted(init, x, key);
      var t := Insert(init, x, key);
      InsertPermutes(init, x, key);
      forall y | y in t ensures key(y) <= key(last) {
        assert y in multiset(t);
        if y != x {
          var k :| 0 <= k < |init| && init[k] == y;
          assert s[k] == y;
        }
      }
      forall i, j | 0 <= i < j < |t| + 1 ensures key((t + [last])[i]) <= key((t + [last])[j]) {
        if j == |t| {
          assert t[i] in t;
        }
      }
    }
  }

  lemma {:induction false} WithKeyAppend<T>(s: seq<T>, y: T, key: T -> int, k: int)
    ensures WithKey(s + [y], key, k) == WithKey(s, key, k) + (if key(y) == k then [y] else [])
  {
    assert (s + [y])[..|s|] == s;
  }

  lemma {:induction false} InsertWithKey<T>(s: seq<T>, x: T, key: T -> int, k: int)
    ensures WithKey(Insert(s, x, key), key, k) == WithKey(s, key, k) + (if key(x) == k then [x] else [])
    decreases |s|
  {
    if s == [] {
      WithKeyAppend([], x, key, k);
    } else {
      var init, last := s[..|s| - 1], s[|s| - 1];
      assert s == init + [last];
      if key(last) <= key(x) {
        WithKeyAppend(s, x, key, k);
      } else {
        InsertWithKey(init, x, key, k);
        WithKeyAppend(Insert(init, x, key), last, key, k);
        WithKeyAppend(init, last, key, k);
      }
    }
  }

  /** SortBy returns a sorted permutation of its input. */
  lemma {:induction false} SortBySortedPermutation<T>(s: seq<T>, key: T -> int)
    ensures SortedBy(SortBy(s, key), key)
    ensures multiset(SortBy(s, key)) == multiset(s)
    ensures |SortBy(s, key)| == |s|
  {
    SortBySorted(s, key);
    SortByPermutes(s, key);
  }

  lemma {:induction false} SortBySorted<T>(s: seq<T>, key: T -> int)
    ensures SortedBy(SortBy(s, key), key)
    decreases |s|
  {
    if s != [] {
      var init, last := s[..|s| - 1], s[|s| - 1];
      SortBySorted(init, key);
      InsertSorted(SortBy(init, key), last, key);
    }
  }

  lemma {:induction false} SortByPermutes<T>(s: seq<T>, key: T -> int)
    ensures multiset(SortBy(s, key)) == multiset(s)
    decreases |s|
  {
    if s != [] {
      var init, last := s[..|s| - 1], s[|s| - 1];
      SortByPermutes(init, key);
      InsertPermutes(SortBy(init, key), last, key);
      assert s == init + [last];
    }
  }

  /** SortBy is stable: the elements sharing a key appear in their input order. */
  lemma {:induction false} SortByStable<T>(s: seq<T>, key: T -> int, k: int)
    ensures WithKey(SortBy(s, key), key, k) == WithKey(s, key, k)
    decreases |s|
  {
    if s != [] {
      var init := s[..|s| - 1];
      SortByStable(init, key, k);
      InsertWithKey(SortBy(init, key), s[|s| - 1], key, k);
    }
  }

  /** `s.slice(-n)` for n >= 1: the last `min(n, |s|)` elements. */
  function TakeLast<T>(s: seq<T>, n: nat): seq<T> {
    if |s| <= n then s else s[|s| - n..]
  }

  /** On a sorted sequence the window keeps the largest keys: everything it
      drops is no larger than anything it keeps. */
  lemma TakeLastKeepsLargest<T>(s: seq<T>, key: T -> int, n: nat)
    requires SortedBy(s, key)
    ensures |TakeLast(s, n)| == if |s| <= n then |s| else n
    ensures s == s[..|s| - |TakeLast(s, n)|] + TakeLast(s, n)
    ensures SortedBy(TakeLast(s, n), key)
    ensures forall i, j :: 0 <= i < |s| - |TakeLast(s, n)| <= j < |s| ==> key(s[i]) <= key(s[j])
  {
  }

  /** Moves `a[i]` left past every larger key of the sorted prefix `a[..i]`. */
  method InsertInPlace<T>(a: array<T>, i: nat, key: T -> int)
    requires i < a.Length
    modifies a
    ensures a[..i + 1] == Insert(old(a[..i]), old(a[i]), key)
    ensures a[i + 1..] == old(a[i + 1..])
  {
    var x := a[i];
    ghost var sorted := a[..i];
    var j := i;
    while j > 0 && key(a[j - 1]) > key(x)
      invariant 0 <= j <= i
      invariant forall k :: 0 <= k < j ==> a[k] == sorted[k]
      invariant forall k :: j < k <= i ==> a[k] == sorted[k - 1]
      invariant forall k :: i < k < a.Length ==> a[k] == old(a[k])
      invariant forall k :: j <= k < i ==> key(sorted[k]) > key(x)
    {
      a[j] := a[j - 1];
      j := j - 1;
    }
    a[j] := x;
    InsertAt(sorted, j, x, key);
    ghost var expected := sorted[..j] + [x] + sorted[j..];
    assert forall k :: 0 <= k <= i ==> a[k] == expected[k];
    assert a[..i + 1] == expected;
  }

  /** Where `Insert` puts `x`: right after the last element whose key is at
      most its own, given that every later element has a larger key. */
  lemma {:induction false} InsertAt<T>(s: seq<T>, j: nat, x: T, key: T -> int)
    requires j <= |s|
    requires forall k :: j <= k < |s| ==> key(s[k]) > key(x)
    requires j > 0 ==> key(s[j - 1]) <= key(x)
    ensures Insert(s, x, key) == s[..j] + [x] + s[j..]
    decreases |s|
  {
    if j == |s| {
      assert s[..j] == s && s[j..] == [];
    } else {
      var init, last := s[..|s| - 1], s[|s| - 1];
      assert key(last) > key(x);
      assert Insert(s, x, key) == Insert(init, x, key) + [last];
      InsertAt(init, j, x, key);
      assert init[..j] == s[..j];
      assert s[j..] == init[j..] + [last];
    }
  }

  /** In-place stable insertion sort, the model of `array.sort((a, b) =>
      key(a) - key(b))`. */
  method SortInPlace<T>(a: array<T>, key: T -> int)
    modifies a
    ensures a[..] == SortBy(old(a[..]), key)
  {
    ghost var orig := a[..];
    var i := 0;
    while i < a.Length
      invariant 0 <= i <= a.Length
      invariant a[..i] == SortBy(orig[..i], key)
      invariant a[i..] == orig[i..]
    {
      assert a[i] == orig[i] by { assert a[i..][0] == orig[i..][0]; }
      assert a[i + 1..] == orig[i + 1..] by { assert a[i + 1..] == a[i..][1..]; }
      InsertInPlace(a, i, key);
      SortByStep(orig, i, key);
      i := i + 1;
    }
    assert orig[..a.Length] == orig;
  }

  /** One more element of the input sorted in: `SortBy` of a longer prefix
      inserts the next element into the sorted shorter prefix. */
  lemma SortByStep<T>(s: seq<T>, i: nat, key: T -> int)
    requires i < |s|
    ensures SortBy(s[..i + 1], key) == Insert(SortBy(s[..i], key), s[i], key)
  {
    assert s[..i + 1][..i] == s[..i];
  }
}
