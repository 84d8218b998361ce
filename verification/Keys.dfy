/** Orders on X-only public keys: the ascending `SortKeys` of the script builder
    (btcstaking/scripts_utils.go) and the descending `SortBIP340PKs` of the witness
    builder (types/btc_schnorr_pk.go). */
module Keys {
  import opened Prelude
  import opened Curve
  import opened StableSort

  /** `bytes.Compare(a, b) == -1` */
  predicate LexLess(a: Bytes, b: Bytes) {
    b != [] && (a == [] || a[0] < b[0] || (a[0] == b[0] && LexLess(a[1..], b[1..])))
  }

  /** `bytes.Compare(a, b) == 1` */
  predicate LexGreater(a: Bytes, b: Bytes) {
    LexLess(b, a)
  }

  lemma {:induction false} LexTrichotomy(a: Bytes, b: Bytes)
    ensures a == b || LexLess(a, b) || LexLess(b, a)
    ensures !LexLess(a, a)
    ensures !(LexLess(a, b) && LexLess(b, a))
  {
    if a != [] {
      LexTrichotomy(a[1..], a[1..]);
      if b != [] {
        LexTrichotomy(a[1..], b[1..]);
        assert a == [a[0]] + a[1..] && b == [b[0]] + b[1..];
      }
    }
  }

  lemma {:induction false} LexTransitive(a: Bytes, b: Bytes, c: Bytes)
    requires LexLess(a, b) && LexLess(b, c)
    ensures LexLess(a, c)
  {
    if a != [] && a[0] == b[0] == c[0] {
      LexTransitive(a[1..], b[1..], c[1..]);
    }
  }

  /** On strings of one length the order is that of the integers they denote. */
  lemma {:induction false} LexIsNumeric(a: Bytes, b: Bytes)
    requires |a| == |b|
    ensures LexLess(a, b) <==> FromBE(a) < FromBE(b)
  {
    if a != [] {
      LexIsNumeric(a[1..], b[1..]);
      FromBEHead(a);
      FromBEHead(b);
      HighByteDecides(a[0], b[0], Pow256(|a| - 1), FromBE(a[1..]), FromBE(b[1..]));
    }
  }

  lemma {:induction false} FromBEHead(b: Bytes)
    requires b != []
    ensures FromBE(b) == b[0] * Pow256(|b| - 1) + FromBE(b[1..])
  {
    var front := b[..|b| - 1];
    if |b| > 1 {
      FromBEHead(front);
      assert front[1..] == b[1..][..|b| - 2];
      assert 256 * (b[0] * Pow256(|b| - 2)) == b[0] * (256 * Pow256(|b| - 2));
    } else {
      assert FromBE(front) == 0 && FromBE(b[1..]) == 0;
    }
  }

  lemma HighByteDecides(x: nat, y: nat, p: nat, u: nat, v: nat)
    requires u < p && v < p
    ensures x * p + u < y * p + v <==> x < y || (x == y && u < v)
  {
    if x < y {
      assert (x + 1) * p <= y * p;
    } else if y < x {
      assert (y + 1) * p <= x * p;
    }
  }

  lemma LexIsTotal()
    ensures StrictTotalOrder(LexLess)
    ensures StrictTotalOrder(LexGreater)
  {
    forall a: Bytes, b: Bytes
      ensures a == b || LexLess(a, b) || LexLess(b, a)
      ensures !LexLess(a, a)
    {
      LexTrichotomy(a, b);
    }
    forall a: Bytes, b: Bytes, c: Bytes | LexLess(a, b) && LexLess(b, c)
      ensures LexLess(a, c)
    {
      LexTransitive(a, b, c);
    }
    TotalFromLaws(LexLess);
    TotalFromLaws(LexGreater);
  }

  lemma TotalFromLaws<T(!new)>(less: (T, T) -> bool)
    requires forall a :: !less(a, a)
    requires forall a, b :: a == b || less(a, b) || less(b, a)
    requires forall a, b, c :: less(a, b) && less(b, c) ==> less(a, c)
    ensures StrictTotalOrder(less)
  {
    forall a, b, c | less(a, c)
      ensures less(a, b) || less(b, c)
    {
      assert a == b || less(a, b) || less(b, a);
    }
  }

  // ----- sorting keys -----

  function XOnly(c: Group, keys: seq<Point>): (r: seq<Bytes>)
    ensures |r| == |keys|
    ensures forall i :: 0 <= i < |r| ==> r[i] == c.x(keys[i])
  {
    seq(|keys|, i requires 0 <= i < |keys| => c.x(keys[i]))
  }

  function KeyLess(c: Group): (less: (Point, Point) -> bool) {
    (p: Point, q: Point) => LexLess(c.x(p), c.x(q))
  }

  /** Public keys in ascending order of their X-only serialisation. */
  function SortKeys(c: Group, keys: seq<Point>): (r: seq<Point>) {
    Sort(KeyLess(c), keys)
  }

  /** X-only keys in descending order. */
  function SortBIP340PKs(keys: seq<Bytes>): (r: seq<Bytes>) {
    Sort(LexGreater, keys)
  }

  /** Scripts list keys by ascending, witnesses by descending X coordinate. */
  lemma SortedByX(c: Group, keys: seq<Point>, i: nat, j: nat)
    requires c.Valid() && i < j < |keys|
    ensures |SortKeys(c, keys)| == |SortBIP340PKs(XOnly(c, keys))| == |keys|
    ensures FromBE(c.x(SortKeys(c, keys)[i])) <= FromBE(c.x(SortKeys(c, keys)[j]))
    ensures FromBE(SortBIP340PKs(XOnly(c, keys))[i]) >= FromBE(SortBIP340PKs(XOnly(c, keys))[j])
  {
    hide FromBE, LexLess, LexGreater, Sort, Group.Valid;
    var pks := XOnly(c, keys);
    forall k | 0 <= k < |pks|
      ensures |pks[k]| == CoordinateLen
    {
      Sizes(c, keys[k]);
    }
    XOnlySort(c, keys);
    assert |SortKeys(c, keys)| == |XOnly(c, SortKeys(c, keys))|;
    SortedBytes(pks, i, j);
  }

  lemma SortedBytes(pks: seq<Bytes>, i: nat, j: nat)
    requires i < j < |pks| && forall k :: 0 <= k < |pks| ==> |pks[k]| == CoordinateLen
    ensures |Sort(LexLess, pks)| == |Sort(LexGreater, pks)| == |pks|
    ensures FromBE(Sort(LexLess, pks)[i]) <= FromBE(Sort(LexLess, pks)[j])
    ensures FromBE(Sort(LexGreater, pks)[i]) >= FromBE(Sort(LexGreater, pks)[j])
  {
    hide FromBE, LexLess, Sort;
    LexIsTotal();
    SortSorted(LexLess, pks);
    SortSorted(LexGreater, pks);
    hide StrictTotalOrder, StrictWeakOrder;
    SortedLength(LexLess, pks, i);
    SortedLength(LexLess, pks, j);
    SortedLength(LexGreater, pks, i);
    SortedLength(LexGreater, pks, j);
    LexIsNumeric(Sort(LexLess, pks)[j], Sort(LexLess, pks)[i]);
    LexIsNumeric(Sort(LexGreater, pks)[i], Sort(LexGreater, pks)[j]);
  }

  lemma SortedLength(less: (Bytes, Bytes) -> bool, pks: seq<Bytes>, i: nat)
    requires i < |pks| && forall k :: 0 <= k < |pks| ==> |pks[k]| == CoordinateLen
    ensures |Sort(less, pks)| == |pks| && |Sort(less, pks)[i]| == CoordinateLen
  {
    SortMembers(less, pks);
    assert Sort(less, pks)[i] in multiset(Sort(less, pks));
    assert Sort(less, pks)[i] in pks;
  }

  function Reverse<T>(s: seq<T>): (r: seq<T>)
    ensures |r| == |s|
    ensures forall i :: 0 <= i < |s| ==> r[i] == s[|s| - 1 - i]
  {
    seq(|s|, i requires 0 <= i < |s| => s[|s| - 1 - i])
  }

  lemma {:induction false} ReverseMembers<T>(s: seq<T>)
    ensures multiset(Reverse(s)) == multiset(s)
  {
    if s != [] {
      var front, last := s[..|s| - 1], s[|s| - 1];
      ReverseMembers(front);
      assert s == front + [last];
      assert Reverse(s) == [last] + Reverse(front);
    }
  }

  /** Sorting keys and then serialising them is sorting the serialised keys. */
  lemma XOnlySort(c: Group, keys: seq<Point>)
    ensures XOnly(c, SortKeys(c, keys)) == Sort(LexLess, XOnly(c, keys))
  {
    MapSort(c.x, KeyLess(c), LexLess, keys);
    assert Map(c.x, keys) == XOnly(c, keys);
    assert Map(c.x, SortKeys(c, keys)) == XOnly(c, SortKeys(c, keys));
  }

  /** The two orders mirror each other, so a witness that lists signatures in the order of
      `SortBIP340PKs` hands them to the keys in the order of `SortKeys` when it is
      consumed from the top of the stack. */
  lemma SortBIP340PKsMirrorsSortKeys(c: Group, keys: seq<Point>)
    ensures SortBIP340PKs(XOnly(c, keys)) == Reverse(XOnly(c, SortKeys(c, keys)))
  {
    var pks := XOnly(c, keys);
    var up, down := Sort(LexLess, pks), Sort(LexGreater, pks);
    XOnlySort(c, keys);
    LexIsTotal();
    SortSorted(LexLess, pks);
    SortSorted(LexGreater, pks);
    SortMembers(LexLess, pks);
    SortMembers(LexGreater, pks);
    ReverseMembers(up);
    assert Sorted(LexGreater, Reverse(up));
    SortedUnique(LexGreater, down, Reverse(up));
  }

  /** The serialised order depends only on which X coordinates there are: not on the order
      of the keys and not on the parity of their Y coordinates. */
  lemma SortKeysCanonical(c: Group, keys: seq<Point>, other: seq<Point>)
    requires multiset(XOnly(c, keys)) == multiset(XOnly(c, other))
    ensures XOnly(c, SortKeys(c, keys)) == XOnly(c, SortKeys(c, other))
  {
    var a, b := XOnly(c, keys), XOnly(c, other);
    XOnlySort(c, keys);
    XOnlySort(c, other);
    LexIsTotal();
    SortSorted(LexLess, a);
    SortSorted(LexLess, b);
    SortMembers(LexLess, a);
    SortMembers(LexLess, b);
    SortedUnique(LexLess, Sort(LexLess, a), Sort(LexLess, b));
  }
}
