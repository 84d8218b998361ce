/** Stable sorting by a comparison, and why it does not matter how it is done.

    Go's `sort.SliceStable` promises a sorted permutation that keeps equivalent elements in
    their original order.  `Sort` is one such function; `StableSortUnique` shows there is
    no other. */
module StableSort {

  ghost predicate StrictWeakOrder<T(!new)>(less: (T, T) -> bool) {
    && (forall a :: !less(a, a))
    && (forall a, b, c :: less(a, b) && less(b, c) ==> less(a, c))
    && (forall a, b, c :: less(a, c) ==> less(a, b) || less(b, c))
  }

  /** A strict weak order in which only equal elements are equivalent. */
  ghost predicate StrictTotalOrder<T(!new)>(less: (T, T) -> bool) {
    StrictWeakOrder(less) && (forall a, b :: a == b || less(a, b) || less(b, a))
  }

  predicate Equivalent<T>(less: (T, T) -> bool, a: T, b: T) {
    !less(a, b) && !less(b, a)
  }

  ghost predicate Sorted<T>(less: (T, T) -> bool, s: seq<T>) {
    forall i, j :: 0 <= i < j < |s| ==> !less(s[j], s[i])
  }

  function Insert<T>(less: (T, T) -> bool, x: T, s: seq<T>): (r: seq<T>) {
    if s == [] || !less(s[0], x) then [x] + s
    else [s[0]] + Insert(less, x, s[1..])
  }

  function Sort<T>(less: (T, T) -> bool, s: seq<T>): (r: seq<T>) {
    if s == [] then [] else Insert(less, s[0], Sort(less, s[1..]))
  }

  /** The elements equivalent to `k`, in order. */
  function Class<T>(less: (T, T) -> bool, s: seq<T>, k: T): (r: seq<T>) {
    if s == [] then [] else Pick(less, s[0], k) + Class(less, s[1..], k)
  }

  function Pick<T>(less: (T, T) -> bool, a: T, k: T): (r: seq<T>) {
    if Equivalent(less, a, k) then [a] else []
  }

  /** What a stable sort promises. */
  ghost predicate IsStableSortOf<T(!new)>(less: (T, T) -> bool, r: seq<T>, s: seq<T>) {
    Sorted(less, r) && forall k :: Class(less, r, k) == Class(less, s, k)
  }

  lemma {:induction false} InsertMembers<T>(less: (T, T) -> bool, x: T, s: seq<T>)
    ensures multiset(Insert(less, x, s)) == multiset(s) + multiset{x}
    ensures |Insert(less, x, s)| == |s| + 1
  {
    if s != [] && less(s[0], x) {
      InsertMembers(less, x, s[1..]);
      assert s == [s[0]] + s[1..];
    }
  }

  lemma {:induction false} SortMembers<T>(less: (T, T) -> bool, s: seq<T>)
    ensures multiset(Sort(less, s)) == multiset(s)
    ensures |Sort(less, s)| == |s|
  {
    if s != [] {
      SortMembers(less, s[1..]);
      InsertMembers(less, s[0], Sort(less, s[1..]));
      assert s == [s[0]] + s[1..];
    }
  }

  lemma {:induction false} InsertSorted<T(!new)>(less: (T, T) -> bool, x: T, s: seq<T>)
    requires StrictWeakOrder(less) && Sorted(less, s)
    ensures Sorted(less, Insert(less, x, s))
  {
    if s == [] {
    } else if !less(s[0], x) {
      forall j | 0 <= j < |s|
        ensures !less(s[j], x)
      {
      }
    } else {
      InsertSorted(less, x, s[1..]);
      var tail := Insert(less, x, s[1..]);
      InsertMembers(less, x, s[1..]);
      forall j | 0 <= j < |tail|
        ensures !less(tail[j], s[0])
      {
        assert tail[j] in multiset(tail);
        if tail[j] != x {
          assert tail[j] in s[1..];
          var i :| 0 <= i < |s[1..]| && s[1..][i] == tail[j];
          assert s[i + 1] == tail[j];
        }
      }
    }
  }

  lemma {:induction false} SortSorted<T(!new)>(less: (T, T) -> bool, s: seq<T>)
    requires StrictWeakOrder(less)
    ensures Sorted(less, Sort(less, s))
  {
    if s != [] {
      SortSorted(less, s[1..]);
      InsertSorted(less, s[0], Sort(less, s[1..]));
    }
  }

  lemma PicksCommute<T(!new)>(less: (T, T) -> bool, y: T, x: T, k: T, rest: seq<T>)
    requires StrictWeakOrder(less) && less(y, x)
    ensures Pick(less, y, k) + (Pick(less, x, k) + rest) == Pick(less, x, k) + (Pick(less, y, k) + rest)
  {
    assert less(y, k) || less(k, x);
  }

  lemma {:induction false} InsertClass<T(!new)>(less: (T, T) -> bool, x: T, s: seq<T>, k: T)
    requires StrictWeakOrder(less)
    ensures Class(less, Insert(less, x, s), k) == Pick(less, x, k) + Class(less, s, k)
  {
    hide StrictWeakOrder, Pick;
    var r := Insert(less, x, s);
    if s == [] || !less(s[0], x) {
      assert r[1..] == s;
    } else {
      InsertClass(less, x, s[1..], k);
      assert r[0] == s[0] && r[1..] == Insert(less, x, s[1..]);
      PicksCommute(less, s[0], x, k, Class(less, s[1..], k));
    }
  }

  /** `Sort` keeps the promise of a stable sort. */
  lemma SortIsStable<T(!new)>(less: (T, T) -> bool, s: seq<T>)
    requires StrictWeakOrder(less)
    ensures IsStableSortOf(less, Sort(less, s), s)
  {
    SortSorted(less, s);
    forall k
      ensures Class(less, Sort(less, s), k) == Class(less, s, k)
    {
      SortClass(less, s, k);
    }
  }

  lemma {:induction false} SortClass<T(!new)>(less: (T, T) -> bool, s: seq<T>, k: T)
    requires StrictWeakOrder(less)
    ensures Class(less, Sort(less, s), k) == Class(less, s, k)
  {
    if s != [] {
      SortClass(less, s[1..], k);
      InsertClass(less, s[0], Sort(less, s[1..]), k);
    }
  }

  lemma {:induction false} ClassMember<T>(less: (T, T) -> bool, s: seq<T>, k: T, a: T)
    ensures a in Class(less, s, k) <==> a in s && Equivalent(less, a, k)
  {
    if s != [] {
      ClassMember(less, s[1..], k, a);
      assert s == [s[0]] + s[1..];
    }
  }

  /** The first element of a sorted sequence is the first of its class in any sequence with
      the same classes. */
  lemma HeadsAgree<T(!new)>(less: (T, T) -> bool, r: seq<T>, t: seq<T>)
    requires StrictWeakOrder(less) && Sorted(less, r) && Sorted(less, t)
    requires forall k :: Class(less, r, k) == Class(less, t, k)
    requires r != [] && t != []
    ensures r[0] == t[0]
  {
    var a, b := r[0], t[0];
    assert Equivalent(less, a, a) && Equivalent(less, b, b);
    ClassMember(less, r, a, a);
    ClassMember(less, t, a, a);
    ClassMember(less, r, b, b);
    ClassMember(less, t, b, b);
    assert a in t && b in r;
    assert Equivalent(less, a, b);
    assert Class(less, r, a)[0] == a;
    assert Class(less, t, a)[0] == b;
  }

  /** Stable sorting has exactly one result. */
  lemma {:induction false} StableSortUnique<T(!new)>(less: (T, T) -> bool, r: seq<T>, t: seq<T>)
    requires StrictWeakOrder(less) && Sorted(less, r) && Sorted(less, t)
    requires forall k :: Class(less, r, k) == Class(less, t, k)
    ensures r == t
  {
    if r == [] || t == [] {
      if r != [] {
        ClassMember(less, r, r[0], r[0]);
        ClassMember(less, t, r[0], r[0]);
      } else if t != [] {
        ClassMember(less, r, t[0], t[0]);
        ClassMember(less, t, t[0], t[0]);
      }
    } else {
      HeadsAgree(less, r, t);
      forall k
        ensures Class(less, r[1..], k) == Class(less, t[1..], k)
      {
        var c := Pick(less, r[0], k);
        assert Class(less, r, k) == c + Class(less, r[1..], k);
        assert Class(less, t, k) == c + Class(less, t[1..], k);
        assert Class(less, r, k)[|c|..] == Class(less, r[1..], k);
        assert Class(less, t, k)[|c|..] == Class(less, t[1..], k);
      }
      StableSortUnique(less, r[1..], t[1..]);
      assert r == [r[0]] + r[1..] && t == [t[0]] + t[1..];
    }
  }

  lemma TotalHeadsAgree<T(!new)>(less: (T, T) -> bool, r: seq<T>, t: seq<T>)
    requires StrictTotalOrder(less) && Sorted(less, r) && Sorted(less, t)
    requires multiset(r) == multiset(t) && r != [] && t != []
    ensures r[0] == t[0]
  {
    assert r[0] in multiset(r) && t[0] in multiset(t);
    assert r[0] in t && t[0] in r;
  }

  /** In a total order a sorted sequence is determined by its multiset of elements. */
  lemma {:induction false} SortedUnique<T(!new)>(less: (T, T) -> bool, r: seq<T>, t: seq<T>)
    requires StrictTotalOrder(less) && Sorted(less, r) && Sorted(less, t)
    requires multiset(r) == multiset(t)
    ensures r == t
  {
    hide StrictTotalOrder;
    assert |r| == |multiset(r)| && |t| == |multiset(t)|;
    if r != [] {
      TotalHeadsAgree(less, r, t);
      var a := r[0];
      assert r == [a] + r[1..] && t == [a] + t[1..];
      assert multiset(r[1..]) == multiset(r) - multiset{a};
      SortedUnique(less, r[1..], t[1..]);
    }
  }

  /** The head of a stable sort: first in the original order among the least elements. */
  lemma SortHead<T(!new)>(less: (T, T) -> bool, s: seq<T>, i: nat)
    requires StrictWeakOrder(less) && i < |s|
    requires forall j :: 0 <= j < |s| ==> !less(s[j], s[i])
    requires forall j :: 0 <= j < i ==> less(s[i], s[j])
    ensures Sort(less, s) != [] && Sort(less, s)[0] == s[i]
  {
    SortIsStable(less, s);
    SortMembers(less, s);
    var r := Sort(less, s);
    assert r[0] in multiset(r) && s[i] in multiset(s);
    assert r[0] in s && s[i] in r;
    assert Equivalent(less, r[0], s[i]);
    assert Class(less, r, s[i])[0] == r[0];
    ClassFirst(less, s, s[i], i);
  }

  lemma {:induction false} ClassFirst<T>(less: (T, T) -> bool, s: seq<T>, k: T, i: nat)
    requires i < |s| && Equivalent(less, s[i], k)
    requires forall j :: 0 <= j < i ==> !Equivalent(less, s[j], k)
    ensures Class(less, s, k) != [] && Class(less, s, k)[0] == s[i]
  {
    if i > 0 {
      ClassFirst(less, s[1..], k, i - 1);
    }
  }

  // ----- sorting and mapping -----

  function Map<T, U>(f: T -> U, s: seq<T>): (r: seq<U>)
    ensures |r| == |s| && forall i :: 0 <= i < |s| ==> r[i] == f(s[i])
  {
    seq(|s|, i requires 0 <= i < |s| => f(s[i]))
  }

  lemma {:induction false} MapInsert<T(!new), U>(f: T -> U, less: (T, T) -> bool, lessU: (U, U) -> bool, x: T, s: seq<T>)
    requires forall a, b :: less(a, b) <==> lessU(f(a), f(b))
    ensures Map(f, Insert(less, x, s)) == Insert(lessU, f(x), Map(f, s))
  {
    if s == [] || !less(s[0], x) {
      assert Map(f, [x] + s) == [f(x)] + Map(f, s);
    } else {
      MapInsert(f, less, lessU, x, s[1..]);
      assert Map(f, s)[1..] == Map(f, s[1..]);
      var tail := Insert(less, x, s[1..]);
      assert Map(f, [s[0]] + tail) == [f(s[0])] + Map(f, tail);
    }
  }

  /** Sorting and then mapping is mapping and then sorting by the order on the images. */
  lemma {:induction false} MapSort<T(!new), U>(f: T -> U, less: (T, T) -> bool, lessU: (U, U) -> bool, s: seq<T>)
    requires forall a, b :: less(a, b) <==> lessU(f(a), f(b))
    ensures Map(f, Sort(less, s)) == Sort(lessU, Map(f, s))
  {
    if s != [] {
      MapSort(f, less, lessU, s[1..]);
      MapInsert(f, less, lessU, s[0], Sort(less, s[1..]));
      assert Map(f, s)[1..] == Map(f, s[1..]);
    }
  }

  // ----- sorting twice -----

  lemma {:induction false} ClassOfClass<T>(coarse: (T, T) -> bool, fine: (T, T) -> bool, s: seq<T>, k: T)
    requires forall a :: a in s && Equivalent(fine, a, k) ==> Equivalent(coarse, a, k)
    ensures Class(fine, s, k) == Class(fine, Class(coarse, s, k), k)
  {
    if s != [] {
      assert forall a :: a in s[1..] ==> a in s;
      ClassOfClass(coarse, fine, s[1..], k);
      var rest := Class(coarse, s[1..], k);
      if Equivalent(coarse, s[0], k) {
        assert Class(coarse, s, k) == [s[0]] + rest;
        assert Class(coarse, s, k)[1..] == rest;
      } else {
        assert !Equivalent(fine, s[0], k);
        assert Class(coarse, s, k) == rest;
      }
    }
  }

  /** A stable sort by a coarser order first changes nothing in a sort by a finer order. */
  lemma SortTwice<T(!new)>(coarse: (T, T) -> bool, fine: (T, T) -> bool, s: seq<T>)
    requires StrictWeakOrder(coarse) && StrictWeakOrder(fine)
    requires forall a, b :: coarse(a, b) ==> fine(a, b)
    ensures Sort(fine, Sort(coarse, s)) == Sort(fine, s)
  {
    var r := Sort(coarse, s);
    SortIsStable(coarse, s);
    SortIsStable(fine, r);
    SortIsStable(fine, s);
    forall k
      ensures Class(fine, Sort(fine, r), k) == Class(fine, Sort(fine, s), k)
    {
      ClassOfClass(coarse, fine, r, k);
      ClassOfClass(coarse, fine, s, k);
    }
    StableSortUnique(fine, Sort(fine, r), Sort(fine, s));
  }
}
