/** Soft deletion of finality providers that share an address
    (app/upgrades/delete_dup_fp.go). */
module SoftDelete {
  import opened Prelude
  import opened StableSort
  import Keys

  datatype FinalityProvider = FinalityProvider(addr: Bytes, btcPk: Bytes, highestVotedHeight: nat)

  datatype FpWithSats = FpWithSats(fp: FinalityProvider, totalSatsStaked: nat)

  /** The staked amount of a provider, by its key; `None` when the query fails. */
  type Sats = Bytes -> Option<nat>

  // ----- the orders -----

  /** Higher voted height first. */
  predicate Higher(a: FinalityProvider, b: FinalityProvider) {
    a.highestVotedHeight > b.highestVotedHeight
  }

  /** Higher voted height first and, at equal heights, the greater amount first. */
  predicate Before(heightA: nat, amountA: nat, heightB: nat, amountB: nat) {
    if heightA == heightB then amountA > amountB else heightA > heightB
  }

  predicate BetterBy(a: FpWithSats, b: FpWithSats) {
    Before(a.fp.highestVotedHeight, a.totalSatsStaked, b.fp.highestVotedHeight, b.totalSatsStaked)
  }

  function Amount(sats: Sats, pk: Bytes): (n: nat) {
    if sats(pk).Some? then sats(pk).value else 0
  }

  /** Which amounts are looked up: all of them, or only those of the providers at the top
      height, and only if there are at least two of them. */
  datatype Lookup = Full | OnTie(tie: bool, top: nat)

  function LookedUp(sats: Sats, lookup: Lookup, fp: FinalityProvider): (n: nat) {
    match lookup
    case Full => Amount(sats, fp.btcPk)
    case OnTie(tie, top) => if tie && fp.highestVotedHeight >= top then Amount(sats, fp.btcPk) else 0
  }

  /** The order by height and then by the amount looked up. */
  function Better(sats: Sats, lookup: Lookup): (less: (FinalityProvider, FinalityProvider) -> bool) {
    (a: FinalityProvider, b: FinalityProvider) =>
      Before(a.highestVotedHeight, LookedUp(sats, lookup, a), b.highestVotedHeight, LookedUp(sats, lookup, b))
  }

  lemma HigherIsWeak()
    ensures StrictWeakOrder(Higher)
  {
  }

  lemma BetterIsWeak(sats: Sats, lookup: Lookup)
    ensures StrictWeakOrder(Better(sats, lookup))
    ensures forall a, b :: Higher(a, b) ==> Better(sats, lookup)(a, b)
  {
  }

  // ----- one group -----

  predicate Tie(group: seq<FinalityProvider>)
    requires |group| >= 2
  {
    group[0].highestVotedHeight == group[1].highestVotedHeight
  }

  /** The group in the order that decides who stays: the first element stays. */
  function Ranked(sats: Sats, group: seq<FinalityProvider>): (r: seq<FinalityProvider>)
    requires |group| >= 2
  {
    SortMembers(Higher, group);
    var byHeight := Sort(Higher, group);
    Sort(Better(sats, OnTie(Tie(byHeight), byHeight[0].highestVotedHeight)), byHeight)
  }

  predicate TopMissing(sats: Sats, s: seq<FinalityProvider>, top: nat) {
    exists i :: 0 <= i < |s| && s[i].highestVotedHeight >= top && sats(s[i].btcPk).None?
  }

  /** A look-up that the group needs fails. */
  predicate NeedsMissing(sats: Sats, group: seq<FinalityProvider>) {
    |group| >= 2 &&
    (SortMembers(Higher, group);
     var byHeight := Sort(Higher, group);
     Tie(byHeight) && TopMissing(sats, byHeight, byHeight[0].highestVotedHeight))
  }

  /** `p` voted at a lower height than `q`, or at the same height with fewer satoshis. */
  predicate Worse(sats: Sats, p: FinalityProvider, q: FinalityProvider) {
    || p.highestVotedHeight < q.highestVotedHeight
    || (p.highestVotedHeight == q.highestVotedHeight && Amount(sats, p.btcPk) < Amount(sats, q.btcPk))
  }

  predicate NotBetter(sats: Sats, p: FinalityProvider, q: FinalityProvider) {
    || p.highestVotedHeight < q.highestVotedHeight
    || (p.highestVotedHeight == q.highestVotedHeight && Amount(sats, p.btcPk) <= Amount(sats, q.btcPk))
  }

  /** `i` is the first position with the greatest height and, among those, the most satoshis. */
  ghost predicate FirstBest(sats: Sats, group: seq<FinalityProvider>, i: nat) {
    && i < |group|
    && (forall j :: 0 <= j < |group| ==> NotBetter(sats, group[j], group[i]))
    && (forall j :: 0 <= j < i ==> Worse(sats, group[j], group[i]))
  }

  lemma BetterMeans(sats: Sats, p: FinalityProvider, q: FinalityProvider)
    ensures Better(sats, Full)(q, p) <==> Worse(sats, p, q)
    ensures Better(sats, Full)(p, q) <==> !NotBetter(sats, p, q)
  {
  }

  lemma {:induction false} FirstBestExists(sats: Sats, group: seq<FinalityProvider>) returns (i: nat)
    requires group != []
    ensures FirstBest(sats, group, i)
  {
    var n := |group| - 1;
    if n == 0 {
      i := 0;
    } else {
      var front := group[..n];
      i := FirstBestExists(sats, front);
      assert forall j :: 0 <= j < n ==> front[j] == group[j];
      assert forall j :: 0 <= j < n ==> NotBetter(sats, front[j], front[i]);
      if Worse(sats, group[i], group[n]) {
        i := n;
      }
    }
  }

  /** Nobody is above the top of the group sorted by height, and without a tie at the top
      nobody else is level with it. */
  lemma TopHeight(group: seq<FinalityProvider>, i: nat, j: nat)
    requires |group| >= 2 && i < |group| && j < |group|
    requires forall k :: 0 <= k < |group| ==> !Higher(group[k], group[i])
    ensures |Sort(Higher, group)| == |group|
    ensures group[i].highestVotedHeight == Sort(Higher, group)[0].highestVotedHeight
    ensures i != j && group[j].highestVotedHeight == group[i].highestVotedHeight ==> Tie(Sort(Higher, group))
  {
    var r := Sort(Higher, group);
    HigherIsWeak();
    SortIsStable(Higher, group);
    SortMembers(Higher, group);
    hide StrictWeakOrder, Class, Sort;
    assert r[0] in multiset(r) && group[i] in multiset(group);
    assert r[0] in group && group[i] in r;
    assert group[i].highestVotedHeight == r[0].highestVotedHeight;
    if i != j && group[j].highestVotedHeight == group[i].highestVotedHeight {
      TwoInClass(group, group[i], i, j);
      NoTieNoTwo(r, group[i]);
    }
  }

  lemma NoTieNoTwo(r: seq<FinalityProvider>, k: FinalityProvider)
    requires |r| >= 2 && Sorted(Higher, r) && r[0].highestVotedHeight == k.highestVotedHeight
    ensures |Class(Higher, r, k)| >= 2 ==> Tie(r)
  {
    if !Tie(r) {
      assert forall i :: 1 <= i < |r| ==> !Higher(r[i], r[1]);
      assert forall i :: 0 <= i < |r| - 1 ==> r[1..][i] == r[i + 1];
      OneInClass(r[1..], k);
    }
  }

  lemma {:induction false} TwoInClass(s: seq<FinalityProvider>, k: FinalityProvider, i: nat, j: nat)
    requires i < |s| && j < |s| && i != j && Equivalent(Higher, s[i], k) && Equivalent(Higher, s[j], k)
    ensures |Class(Higher, s, k)| >= 2
  {
    if i == 0 {
      ClassMember(Higher, s[1..], k, s[1..][j - 1]);
    } else if j == 0 {
      ClassMember(Higher, s[1..], k, s[1..][i - 1]);
    } else {
      TwoInClass(s[1..], k, i - 1, j - 1);
    }
  }

  lemma OneInClass(s: seq<FinalityProvider>, k: FinalityProvider)
    requires forall i :: 0 <= i < |s| ==> Higher(k, s[i])
    ensures Class(Higher, s, k) == []
  {
    if Class(Higher, s, k) != [] {
      ClassMember(Higher, s, k, Class(Higher, s, k)[0]);
    }
  }

  /** The provider that stays is the first in store order among those with the highest voted
      height and, at that height, the most satoshis; looking amounts up only on a tie makes
      no difference. */
  lemma SurvivorIsFirstBest(sats: Sats, group: seq<FinalityProvider>, i: nat)
    requires |group| >= 2 && FirstBest(sats, group, i)
    ensures Ranked(sats, group) != [] && Ranked(sats, group)[0] == group[i]
    ensures Sort(Better(sats, Full), group)[..1] == Ranked(sats, group)[..1]
  {
    hide StrictWeakOrder, Sort, Better;
    LazyAgrees(sats, group, i, i);
    var byHeight := Sort(Higher, group);
    var lazy := OnTie(Tie(byHeight), byHeight[0].highestVotedHeight);
    HigherIsWeak();
    BetterIsWeak(sats, lazy);
    BetterIsWeak(sats, Full);
    SortTwice(Higher, Better(sats, lazy), group);
    forall j | 0 <= j < |group|
      ensures !Better(sats, lazy)(group[j], group[i])
      ensures j < i ==> Better(sats, lazy)(group[i], group[j])
    {
      LazyAgrees(sats, group, i, j);
    }
    forall j | 0 <= j < |group|
      ensures !Better(sats, Full)(group[j], group[i])
      ensures j < i ==> Better(sats, Full)(group[i], group[j])
    {
      BetterMeans(sats, group[j], group[i]);
    }
    SortHead(Better(sats, lazy), group, i);
    SortHead(Better(sats, Full), group, i);
  }

  lemma LazyAgrees(sats: Sats, group: seq<FinalityProvider>, i: nat, j: nat)
    requires |group| >= 2 && FirstBest(sats, group, i) && j < |group|
    ensures |Sort(Higher, group)| == |group|
    ensures var byHeight := Sort(Higher, group);
            var lazy := OnTie(Tie(byHeight), byHeight[0].highestVotedHeight);
            && !Better(sats, lazy)(group[j], group[i])
            && (j < i ==> Better(sats, lazy)(group[i], group[j]))
  {
    hide Sort;
    assert forall k :: 0 <= k < |group| ==> NotBetter(sats, group[k], group[i]);
    TopHeight(group, i, j);
    assert j < i ==> Worse(sats, group[j], group[i]);
  }

  /** Two providers share the greatest height of the group, and the amount of one is not known. */
  ghost predicate UnknownTie(sats: Sats, group: seq<FinalityProvider>, i: nat, j: nat) {
    && i < |group| && j < |group| && i != j
    && (forall k :: 0 <= k < |group| ==> group[k].highestVotedHeight <= group[i].highestVotedHeight)
    && group[j].highestVotedHeight == group[i].highestVotedHeight
    && sats(group[i].btcPk).None?
  }

  lemma NeedsMissingMeans(sats: Sats, group: seq<FinalityProvider>)
    ensures NeedsMissing(sats, group) <==> exists i: nat, j: nat :: UnknownTie(sats, group, i, j)
  {
    if NeedsMissing(sats, group) {
      var i, j := TiedAtTop(sats, group);
    }
    if i: nat, j: nat :| UnknownTie(sats, group, i, j) {
      TopHeight(group, i, j);
      SortMembers(Higher, group);
      hide Sort;
      var byHeight := Sort(Higher, group);
      assert group[i] in multiset(group);
      assert group[i] in byHeight;
    }
  }

  lemma TiedAtTop(sats: Sats, group: seq<FinalityProvider>) returns (i: nat, j: nat)
    requires NeedsMissing(sats, group)
    ensures UnknownTie(sats, group, i, j)
  {
    var byHeight := Sort(Higher, group);
    HigherIsWeak();
    SortIsStable(Higher, group);
    SortMembers(Higher, group);
    hide StrictWeakOrder, Sort, Class;
    var top := byHeight[0].highestVotedHeight;
    var n :| 0 <= n < |byHeight| && byHeight[n].highestVotedHeight >= top && sats(byHeight[n].btcPk).None?;
    assert byHeight[n] in multiset(byHeight);
    i :| i < |group| && group[i] == byHeight[n];
    forall k | 0 <= k < |group|
      ensures group[k].highestVotedHeight <= top
    {
      assert group[k] in multiset(group);
      var m :| 0 <= m < |byHeight| && byHeight[m] == group[k];
      assert m > 0 ==> !Higher(byHeight[m], byHeight[0]);
    }
    TwoInClass(byHeight, group[i], 0, 1);
    j := AnotherInClass(group, group[i], i);
  }

  lemma {:induction false} AnotherInClass(s: seq<FinalityProvider>, k: FinalityProvider, i: nat) returns (j: nat)
    requires i < |s| && Equivalent(Higher, s[i], k) && |Class(Higher, s, k)| >= 2
    ensures j < |s| && j != i && Equivalent(Higher, s[j], k)
  {
    if i == 0 {
      var other := Class(Higher, s[1..], k)[0];
      ClassMember(Higher, s[1..], k, other);
      var m :| 0 <= m < |s[1..]| && s[1..][m] == other;
      j := m + 1;
    } else if Equivalent(Higher, s[0], k) {
      j := 0;
    } else {
      j := AnotherInClass(s[1..], k, i - 1);
      j := j + 1;
    }
  }

  /** Everybody else goes: what is deleted is the group without the survivor. */
  lemma DeletedIsTheRest(sats: Sats, group: seq<FinalityProvider>)
    requires |group| >= 2
    ensures var r := Ranked(sats, group);
            |r| == |group| && multiset(r[1..]) == multiset(group) - multiset{r[0]}
  {
    SortMembers(Higher, group);
    var byHeight := Sort(Higher, group);
    SortMembers(Better(sats, OnTie(Tie(byHeight), byHeight[0].highestVotedHeight)), byHeight);
    var r := Ranked(sats, group);
    assert r == [r[0]] + r[1..];
  }

  // ----- all groups -----

  function Group(fps: seq<FinalityProvider>, addr: Bytes): (r: seq<FinalityProvider>) {
    if fps == [] then []
    else
      var last := |fps| - 1;
      Group(fps[..last], addr) + if fps[last].addr == addr then [fps[last]] else []
  }

  predicate IsDup(fps: seq<FinalityProvider>, addr: Bytes) {
    |Group(fps, addr)| >= 2
  }

  /** The addresses used more than once, in order of first use. */
  function DupAddrs(fps: seq<FinalityProvider>, upTo: nat): (r: seq<Bytes>)
    requires upTo <= |fps|
  {
    if upTo == 0 then []
    else
      var r, a := DupAddrs(fps, upTo - 1), fps[upTo - 1].addr;
      if IsDup(fps, a) && a !in r then r + [a] else r
  }

  ghost predicate NoRepeats(s: seq<Bytes>) {
    forall i, j :: 0 <= i < j < |s| ==> s[i] != s[j]
  }

  lemma {:induction false} DupAddrsMembers(fps: seq<FinalityProvider>, upTo: nat, addr: Bytes)
    requires upTo <= |fps|
    ensures addr in DupAddrs(fps, upTo)
            <==> IsDup(fps, addr) && exists i :: 0 <= i < upTo && fps[i].addr == addr
    ensures NoRepeats(DupAddrs(fps, upTo))
  {
    if upTo > 0 {
      DupAddrsMembers(fps, upTo - 1, addr);
    }
  }

  ghost predicate Uses(fps: seq<FinalityProvider>, addr: Bytes) {
    exists i :: 0 <= i < |fps| && fps[i].addr == addr
  }

  lemma {:induction false} GroupOfUnused(fps: seq<FinalityProvider>, addr: Bytes)
    ensures Group(fps, addr) != [] <==> Uses(fps, addr)
  {
    if fps != [] {
      var last := |fps| - 1;
      var front := fps[..last];
      GroupOfUnused(front, addr);
      if Uses(front, addr) {
        var i :| 0 <= i < |front| && front[i].addr == addr;
        assert fps[i].addr == addr;
      }
      if Uses(fps, addr) && fps[last].addr != addr {
        var i :| 0 <= i < |fps| && fps[i].addr == addr;
        assert front[i].addr == addr;
      }
    }
  }

  function Pks(s: seq<FinalityProvider>): (r: seq<Bytes>)
    ensures |r| == |s| && forall i :: 0 <= i < |s| ==> r[i] == s[i].btcPk
  {
    seq(|s|, i requires 0 <= i < |s| => s[i].btcPk)
  }

  /** The keys to delete for a list of duplicated addresses. */
  function Deletions(fps: seq<FinalityProvider>, sats: Sats, addrs: seq<Bytes>): (r: seq<Bytes>)
    requires forall i :: 0 <= i < |addrs| ==> IsDup(fps, addrs[i])
  {
    if addrs == [] then []
    else
      var last := |addrs| - 1;
      assert IsDup(fps, addrs[last]);
      Deletions(fps, sats, addrs[..last]) + Losers(sats, Group(fps, addrs[last]))
  }

  /** The keys of a group without the survivor. */
  function Losers(sats: Sats, group: seq<FinalityProvider>): (r: seq<Bytes>)
    requires |group| >= 2
  {
    DeletedIsTheRest(sats, group);
    Pks(Ranked(sats, group)[1..])
  }

  lemma LosersAre(sats: Sats, group: seq<FinalityProvider>, pks: seq<Bytes>)
    requires |group| >= 2 && |pks| + 1 == |Ranked(sats, group)|
    requires forall j :: 0 <= j < |pks| ==> pks[j] == Ranked(sats, group)[j + 1].btcPk
    ensures pks == Losers(sats, group)
  {
    hide Ranked;
  }

  /** Addresses from the greatest to the least. */
  function OrderedDups(fps: seq<FinalityProvider>): (r: seq<Bytes>) {
    Sort(Keys.LexGreater, DupAddrs(fps, |fps|))
  }

  lemma OrderedDupsMembers(fps: seq<FinalityProvider>, addr: Bytes)
    ensures addr in OrderedDups(fps) <==> IsDup(fps, addr)
  {
    var dups := DupAddrs(fps, |fps|);
    SortMembers(Keys.LexGreater, dups);
    DupAddrsMembers(fps, |fps|, addr);
    GroupOfUnused(fps, addr);
    assert addr in OrderedDups(fps) <==> addr in multiset(OrderedDups(fps));
    assert addr in dups <==> addr in multiset(dups);
  }

  lemma {:induction false} SameElements(s: seq<Bytes>, t: seq<Bytes>)
    requires NoRepeats(s) && NoRepeats(t) && forall k :: k in s <==> k in t
    ensures multiset(s) == multiset(t)
  {
    forall k
      ensures multiset(s)[k] == multiset(t)[k]
    {
      CountNoRepeats(s, k);
      CountNoRepeats(t, k);
    }
  }

  lemma {:induction false} CountNoRepeats(s: seq<Bytes>, k: Bytes)
    requires NoRepeats(s)
    ensures multiset(s)[k] == if k in s then 1 else 0
  {
    if s != [] {
      var last := |s| - 1;
      CountNoRepeats(s[..last], k);
      assert s == s[..last] + [s[last]];
    }
  }

  /** Whatever order a map hands its keys out in, sorting them gives the same list. */
  lemma OrderDoesNotMatter(fps: seq<FinalityProvider>, found: seq<Bytes>)
    requires NoRepeats(found) && forall a :: a in found <==> IsDup(fps, a)
    ensures Sort(Keys.LexGreater, found) == OrderedDups(fps)
  {
    var dups := DupAddrs(fps, |fps|);
    Keys.LexIsTotal();
    forall a
      ensures a in found <==> a in dups
    {
      DupAddrsMembers(fps, |fps|, a);
      GroupOfUnused(fps, a);
    }
    DupAddrsMembers(fps, |fps|, []);
    SameElements(found, dups);
    SortMembers(Keys.LexGreater, found);
    SortMembers(Keys.LexGreater, dups);
    SortSorted(Keys.LexGreater, found);
    SortSorted(Keys.LexGreater, dups);
    SortedUnique(Keys.LexGreater, Sort(Keys.LexGreater, found), Sort(Keys.LexGreater, dups));
  }

  // ----- who is left -----

  /** The store has one provider per key. */
  ghost predicate OnePerKey(fps: seq<FinalityProvider>) {
    forall i, j :: 0 <= i < j < |fps| ==> fps[i].btcPk != fps[j].btcPk
  }

  lemma {:induction false} CountOnePerKey(s: seq<FinalityProvider>, p: FinalityProvider)
    requires OnePerKey(s)
    ensures multiset(s)[p] <= 1
  {
    if s != [] {
      var last := |s| - 1;
      CountOnePerKey(s[..last], p);
      assert s == s[..last] + [s[last]];
      if p == s[last] {
        assert p !in s[..last];
      }
    }
  }

  lemma {:induction false} DeletionsMembers(fps: seq<FinalityProvider>, sats: Sats, addrs: seq<Bytes>, pk: Bytes)
    requires forall i :: 0 <= i < |addrs| ==> IsDup(fps, addrs[i])
    ensures pk in Deletions(fps, sats, addrs)
            <==> exists a :: a in addrs && IsDup(fps, a) && pk in Losers(sats, Group(fps, a))
  {
    hide Losers, IsDup;
    if addrs != [] {
      var last := |addrs| - 1;
      assert forall i :: 0 <= i < last ==> addrs[..last][i] == addrs[i];
      DeletionsMembers(fps, sats, addrs[..last], pk);
      assert addrs == addrs[..last] + [addrs[last]];
    }
  }

  lemma {:induction false} InPks(s: seq<FinalityProvider>, group: seq<FinalityProvider>, p: FinalityProvider)
    requires OnePerKey(group) && p in group && forall q :: q in s ==> q in group
    ensures p.btcPk in Pks(s) <==> p in s
  {
    if p in s {
      var j :| 0 <= j < |s| && s[j] == p;
      assert Pks(s)[j] == p.btcPk;
    }
    if p.btcPk in Pks(s) {
      var j :| 0 <= j < |s| && Pks(s)[j] == p.btcPk;
      SamePkSame(group, s[j], p);
    }
  }

  /** The deleted keys of a group are those of the group without the survivor. */
  lemma LosersMembers(sats: Sats, group: seq<FinalityProvider>, p: FinalityProvider)
    requires |group| >= 2 && OnePerKey(group) && p in group
    ensures Ranked(sats, group) != []
    ensures p.btcPk in Losers(sats, group) <==> p != Ranked(sats, group)[0]
  {
    DeletedIsTheRest(sats, group);
    RankedMembers(sats, group);
    hide Ranked, OnePerKey, Pks;
    var r := Ranked(sats, group);
    CountOnePerKey(group, p);
    assert p in multiset(group) && (p in r[1..] <==> p in multiset(r[1..]));
    forall q | q in r[1..]
      ensures q in group
    {
      assert q in multiset(r[1..]);
    }
    InPks(r[1..], group, p);
  }

  lemma RankedMembers(sats: Sats, group: seq<FinalityProvider>)
    requires |group| >= 2
    ensures multiset(Ranked(sats, group)) == multiset(group)
    ensures Ranked(sats, group) != [] && Ranked(sats, group)[0] in multiset(group)
  {
    SortMembers(Higher, group);
    var byHeight := Sort(Higher, group);
    SortMembers(Better(sats, OnTie(Tie(byHeight), byHeight[0].highestVotedHeight)), byHeight);
    assert Ranked(sats, group)[0] in multiset(Ranked(sats, group));
  }

  lemma SamePkSame(s: seq<FinalityProvider>, p: FinalityProvider, q: FinalityProvider)
    requires OnePerKey(s) && p in s && q in s && p.btcPk == q.btcPk
    ensures p == q
  {
  }

  lemma {:induction false} GroupIsPart(fps: seq<FinalityProvider>, addr: Bytes)
    requires OnePerKey(fps)
    ensures OnePerKey(Group(fps, addr))
    ensures forall p :: p in Group(fps, addr) <==> p in fps && p.addr == addr
  {
    if fps != [] {
      var last := |fps| - 1;
      var front := fps[..last];
      GroupIsPart(front, addr);
      assert fps == front + [fps[last]];
      var g := Group(front, addr);
      forall i | 0 <= i < |g|
        ensures g[i].btcPk != fps[last].btcPk
      {
        assert g[i] in front;
      }
    }
  }

  /** At every address that has a provider exactly one is not deleted: the first in store order
      with the highest voted height and, at that height, the most satoshis. */
  lemma KeepsExactlyOne(fps: seq<FinalityProvider>, sats: Sats, addr: Bytes) returns (best: nat)
    requires OnePerKey(fps) && exists p :: p in fps && p.addr == addr
    ensures forall i :: 0 <= i < |OrderedDups(fps)| ==> IsDup(fps, OrderedDups(fps)[i])
    ensures FirstBest(sats, Group(fps, addr), best)
    ensures var survivor := Group(fps, addr)[best];
            && survivor in fps && survivor.addr == addr
            && forall p :: p in fps && p.addr == addr ==>
                 (p.btcPk !in Deletions(fps, sats, OrderedDups(fps)) <==> p == survivor)
  {
    GroupIsPart(fps, addr);
    best := FirstBestExists(sats, Group(fps, addr));
    hide OrderedDups, Deletions, Better;
    forall p | p in fps && p.addr == addr
      ensures forall i :: 0 <= i < |OrderedDups(fps)| ==> IsDup(fps, OrderedDups(fps)[i])
      ensures p.btcPk !in Deletions(fps, sats, OrderedDups(fps)) <==> p == Group(fps, addr)[best]
    {
      KeepsBest(fps, sats, addr, best, p);
    }
  }

  /** No provider at the address of the `n`th comes before it: none is better, and those earlier in
      the store are worse. */
  ghost predicate Survives(fps: seq<FinalityProvider>, sats: Sats, n: nat)
    requires n < |fps|
  {
    forall m :: 0 <= m < |fps| && fps[m].addr == fps[n].addr ==>
      NotBetter(sats, fps[m], fps[n]) && (m < n ==> Worse(sats, fps[m], fps[n]))
  }

  lemma {:induction false} GroupPosition(fps: seq<FinalityProvider>, n: nat)
    requires n < |fps|
    ensures var addr := fps[n].addr;
            var i := |Group(fps[..n], addr)|;
            i < |Group(fps, addr)| && Group(fps, addr)[i] == fps[n]
  {
    var last := |fps| - 1;
    if n < last {
      GroupPosition(fps[..last], n);
      assert fps[..last][..n] == fps[..n];
    }
  }

  lemma {:induction false} StorePosition(fps: seq<FinalityProvider>, addr: Bytes, i: nat) returns (n: nat)
    requires i < |Group(fps, addr)|
    ensures n < |fps| && fps[n].addr == addr && |Group(fps[..n], addr)| == i
  {
    var last := |fps| - 1;
    var front := fps[..last];
    if i < |Group(front, addr)| {
      n := StorePosition(front, addr, i);
      assert front[..n] == fps[..n];
    } else {
      n := last;
    }
  }

  lemma PositionsRise(fps: seq<FinalityProvider>, m: nat, n: nat)
    requires m < n <= |fps|
    ensures |Group(fps[..m], fps[m].addr)| < |Group(fps[..n], fps[m].addr)|
  {
    GroupPosition(fps[..n], m);
    assert fps[..n][..m] == fps[..m];
  }

  lemma SurvivesInGroup(fps: seq<FinalityProvider>, sats: Sats, n: nat)
    requires n < |fps|
    ensures var addr := fps[n].addr;
            Survives(fps, sats, n) <==> FirstBest(sats, Group(fps, addr), |Group(fps[..n], addr)|)
  {
    hide Group, Worse, NotBetter;
    var addr := fps[n].addr;
    var group, at := Group(fps, addr), |Group(fps[..n], addr)|;
    GroupPosition(fps, n);
    if FirstBest(sats, group, at) {
      forall m | 0 <= m < |fps| && fps[m].addr == addr
        ensures NotBetter(sats, fps[m], fps[n]) && (m < n ==> Worse(sats, fps[m], fps[n]))
      {
        GroupPosition(fps, m);
        if m < n {
          PositionsRise(fps, m, n);
        }
      }
    }
    if Survives(fps, sats, n) {
      forall j | 0 <= j < |group|
        ensures NotBetter(sats, group[j], group[at]) && (j < at ==> Worse(sats, group[j], group[at]))
      {
        var m := StorePosition(fps, addr, j);
        GroupPosition(fps, m);
        if n < m {
          PositionsRise(fps, n, m);
        }
      }
    }
  }

  /** A provider is kept exactly if no other at its address comes before it. */
  lemma KeptIffSurvives(fps: seq<FinalityProvider>, sats: Sats, n: nat)
    requires OnePerKey(fps) && n < |fps|
    ensures forall i :: 0 <= i < |OrderedDups(fps)| ==> IsDup(fps, OrderedDups(fps)[i])
    ensures fps[n].btcPk !in Deletions(fps, sats, OrderedDups(fps)) <==> Survives(fps, sats, n)
  {
    hide OrderedDups, Deletions, Group, Survives;
    var addr := fps[n].addr;
    assert fps[n] in fps;
    var best := KeepsExactlyOne(fps, sats, addr);
    var group, at := Group(fps, addr), |Group(fps[..n], addr)|;
    GroupPosition(fps, n);
    GroupIsPart(fps, addr);
    SurvivesInGroup(fps, sats, n);
    OneFirstBest(sats, group, best, at);
    assert group[at] == group[best] ==> at == best;
  }

  lemma OneFirstBest(sats: Sats, group: seq<FinalityProvider>, i: nat, j: nat)
    requires FirstBest(sats, group, i) && j < |group|
    ensures FirstBest(sats, group, j) <==> j == i
  {
    assert NotBetter(sats, group[j], group[i]);
    assert j < i ==> Worse(sats, group[j], group[i]);
    assert FirstBest(sats, group, j) ==> NotBetter(sats, group[i], group[j]);
    assert FirstBest(sats, group, j) && i < j ==> Worse(sats, group[i], group[j]);
  }

  lemma KeepsBest(fps: seq<FinalityProvider>, sats: Sats, addr: Bytes, best: nat, p: FinalityProvider)
    requires OnePerKey(fps) && FirstBest(sats, Group(fps, addr), best)
    requires p in fps && p.addr == addr
    ensures forall i :: 0 <= i < |OrderedDups(fps)| ==> IsDup(fps, OrderedDups(fps)[i])
    ensures p.btcPk !in Deletions(fps, sats, OrderedDups(fps)) <==> p == Group(fps, addr)[best]
  {
    var group, dups := Group(fps, addr), OrderedDups(fps);
    forall a
      ensures a in dups <==> IsDup(fps, a)
    {
      OrderedDupsMembers(fps, a);
    }
    hide OrderedDups, Losers, Deletions, FirstBest;
    assert forall i :: 0 <= i < |dups| ==> dups[i] in dups;
    DeletionsMembers(fps, sats, dups, p.btcPk);
    forall a | IsDup(fps, a) && p.btcPk in Losers(sats, Group(fps, a))
      ensures a == addr
    {
      LoserHasAddress(fps, sats, a, p);
    }
    GroupIsPart(fps, addr);
    if IsDup(fps, addr) {
      SurvivorIsFirstBest(sats, group, best);
      LosersMembers(sats, group, p);
    } else {
      SingleBest(sats, group, best);
      assert p == group[0];
    }
  }

  lemma SingleBest(sats: Sats, group: seq<FinalityProvider>, best: nat)
    requires FirstBest(sats, group, best) && |group| < 2
    ensures best == 0 && |group| == 1
  {
  }

  lemma LoserHasAddress(fps: seq<FinalityProvider>, sats: Sats, a: Bytes, p: FinalityProvider)
    requires OnePerKey(fps) && IsDup(fps, a) && p in fps && p.btcPk in Losers(sats, Group(fps, a))
    ensures p.addr == a
  {
    var group := Group(fps, a);
    GroupIsPart(fps, a);
    RankedMembers(sats, group);
    DeletedIsTheRest(sats, group);
    hide Ranked;
    var r := Ranked(sats, group);
    var j :| 0 <= j < |r| - 1 && r[1..][j].btcPk == p.btcPk;
    assert r[1..][j] in multiset(r[1..]);
    assert r[1..][j] in group;
    SamePkSame(fps, r[1..][j], p);
  }

  // ----- the migration -----

  /** The part of the staking keeper the migration uses. */
  class Keeper {
    const fps: seq<FinalityProvider>   // in store order
    const sats: Sats
    var bbnAddrs: set<Bytes>
    var deleted: seq<Bytes>

    constructor (fps: seq<FinalityProvider>, sats: Sats)
      ensures this.fps == fps && this.sats == sats && bbnAddrs == {} && deleted == []
    {
      this.fps, this.sats, bbnAddrs, deleted := fps, sats, {}, [];
    }

    method SetFpBbnAddr(addr: Bytes)
      modifies this`bbnAddrs
      ensures bbnAddrs == old(bbnAddrs) + {addr}
    {
      bbnAddrs := bbnAddrs + {addr};
    }

    method SoftDeleteFinalityProvider(pk: Bytes)
      modifies this`deleted
      ensures deleted == old(deleted) + [pk]
    {
      deleted := deleted + [pk];
    }
  }

  predicate HigherWith(a: FpWithSats, b: FpWithSats) {
    a.fp.highestVotedHeight > b.fp.highestVotedHeight
  }

  function Unloaded(): (f: FinalityProvider -> FpWithSats) {
    (fp: FinalityProvider) => FpWithSats(fp, 0)
  }

  function Loaded(sats: Sats, lookup: Lookup): (f: FinalityProvider -> FpWithSats) {
    (fp: FinalityProvider) => FpWithSats(fp, LookedUp(sats, lookup, fp))
  }

  /** Loads the amounts of the providers at the top height. */
  method LoadAmounts(sats: Sats, group: seq<FpWithSats>, top: nat, ghost byHeight: seq<FinalityProvider>)
    returns (ok: bool, loaded: seq<FpWithSats>)
    requires group == Map(Unloaded(), byHeight)
    ensures ok <==> !TopMissing(sats, byHeight, top)
    ensures ok ==> loaded == Map(Loaded(sats, OnTie(true, top)), byHeight)
  {
    loaded := group;
    for i := 0 to |loaded|
      invariant |loaded| == |byHeight|
      invariant forall j :: 0 <= j < i ==> loaded[j] == Loaded(sats, OnTie(true, top))(byHeight[j])
      invariant forall j :: i <= j < |loaded| ==> loaded[j] == Unloaded()(byHeight[j])
      invariant forall j :: 0 <= j < i ==> byHeight[j].highestVotedHeight < top || sats(byHeight[j].btcPk).Some?
    {
      if top > loaded[i].fp.highestVotedHeight {
        continue;
      }
      var totalSats := sats(loaded[i].fp.btcPk);
      if totalSats.None? {
        return false, [];
      }
      loaded := loaded[i := loaded[i].(totalSatsStaked := totalSats.value)];
    }
    ok := true;
  }

  /** Sorting entries without amounts by height is sorting the providers. */
  lemma SortedByHeight(fps: seq<FinalityProvider>)
    requires |fps| >= 2
    ensures Sort(HigherWith, Map(Unloaded(), fps)) == Map(Unloaded(), Sort(Higher, fps))
    ensures |Sort(Higher, fps)| == |fps|
  {
    SortMembers(Higher, fps);
    MapSort(Unloaded(), Higher, HigherWith, fps);
  }

  lemma NothingLoaded(sats: Sats, top: nat, fps: seq<FinalityProvider>)
    ensures Map(Unloaded(), fps) == Map(Loaded(sats, OnTie(false, top)), fps)
  {
  }

  /** Sorting entries with the amounts loaded is ranking the providers. */
  lemma SortedByAmount(sats: Sats, fps: seq<FinalityProvider>, lookup: Lookup)
    requires |fps| >= 2 && |Sort(Higher, fps)| == |fps|
    requires lookup == OnTie(Tie(Sort(Higher, fps)), Sort(Higher, fps)[0].highestVotedHeight)
    ensures var ranked := Sort(BetterBy, Map(Loaded(sats, lookup), Sort(Higher, fps)));
            && |ranked| == |fps| == |Ranked(sats, fps)|
            && forall i :: 0 <= i < |ranked| ==> ranked[i].fp == Ranked(sats, fps)[i]
  {
    DeletedIsTheRest(sats, fps);
    hide Sort;
    MapSort(Loaded(sats, lookup), Better(sats, lookup), BetterBy, Sort(Higher, fps));
  }

  /** Sorts one group, loads amounts if the top is tied, and sorts it again. */
  method RankGroup(sats: Sats, group: seq<FpWithSats>, ghost fps: seq<FinalityProvider>)
    returns (ok: bool, ranked: seq<FpWithSats>)
    requires |fps| >= 2 && group == Map(Unloaded(), fps)
    ensures ok <==> !NeedsMissing(sats, fps)
    ensures ok ==> |ranked| == |fps| == |Ranked(sats, fps)|
    ensures ok ==> forall i :: 0 <= i < |ranked| ==> ranked[i].fp == Ranked(sats, fps)[i]
  {
    hide Sort, TopMissing, Ranked, Loaded, BetterBy, HigherWith;
    SortedByHeight(fps);
    ranked := Sort(HigherWith, group);
    ghost var byHeight := Sort(Higher, fps);
    var top := ranked[0].fp.highestVotedHeight;
    if top == ranked[1].fp.highestVotedHeight {
      ok, ranked := LoadAmounts(sats, ranked, top, byHeight);
      if !ok {
        return;
      }
    } else {
      NothingLoaded(sats, top, byHeight);
    }
    SortedByAmount(sats, fps, OnTie(Tie(byHeight), top));
    ranked := Sort(BetterBy, ranked);
    ok := true;
  }

  /** A group with the amounts not loaded yet. */
  function Entries(fps: seq<FinalityProvider>, addr: Bytes): (r: seq<FpWithSats>) {
    Map(Unloaded(), Group(fps, addr))
  }

  lemma EntriesSnoc(fps: seq<FinalityProvider>, i: nat, addr: Bytes)
    requires i < |fps|
    ensures Entries(fps[..i + 1], addr)
            == Entries(fps[..i], addr) + if fps[i].addr == addr then [FpWithSats(fps[i], 0)] else []
  {
    assert fps[..i + 1][..i] == fps[..i];
  }

  /** `groups` holds the entries of every address that has one. */
  ghost predicate Grouped(groups: map<Bytes, seq<FpWithSats>>, fps: seq<FinalityProvider>) {
    && (forall a :: a in groups <==> Entries(fps, a) != [])
    && (forall a :: a in groups ==> groups[a] == Entries(fps, a))
  }

  lemma GroupedSnoc(groups: map<Bytes, seq<FpWithSats>>, fps: seq<FinalityProvider>, i: nat)
    requires i < |fps| && Grouped(groups, fps[..i])
    ensures var addr := fps[i].addr;
            var sofar := if addr in groups then groups[addr] else [];
            Grouped(groups[addr := sofar + [FpWithSats(fps[i], 0)]], fps[..i + 1])
  {
    hide Entries;
    forall a
      ensures Entries(fps[..i + 1], a)
              == Entries(fps[..i], a) + if fps[i].addr == a then [FpWithSats(fps[i], 0)] else []
    {
      EntriesSnoc(fps, i, a);
    }
  }

  /** Groups providers by address in store order and records every address. */
  method CollectGroups(k: Keeper) returns (fpsByAddr: map<Bytes, seq<FpWithSats>>)
    modifies k`bbnAddrs
    ensures k.bbnAddrs == old(k.bbnAddrs) + fpsByAddr.Keys
    ensures forall a :: a in fpsByAddr <==> Entries(k.fps, a) != []
    ensures forall a :: a in fpsByAddr ==> fpsByAddr[a] == Entries(k.fps, a)
  {
    var fps := k.fps;
    fpsByAddr := map[];
    assert Grouped(fpsByAddr, fps[..0]);
    hide Entries;
    for i := 0 to |fps|
      invariant k.bbnAddrs == old(k.bbnAddrs) + fpsByAddr.Keys
      invariant Grouped(fpsByAddr, fps[..i])
    {
      hide Grouped;
      GroupedSnoc(fpsByAddr, fps, i);
      var addr := fps[i].addr;
      var sofar := if addr in fpsByAddr then fpsByAddr[addr] else [];
      fpsByAddr := fpsByAddr[addr := sofar + [FpWithSats(fps[i], 0)]];
      k.SetFpBbnAddr(addr);
    }
    assert fps[..|fps|] == fps;
  }

  /** The duplicated addresses in whatever order the map hands them out, then sorted. */
  method CollectDupAddrs(fpsByAddr: map<Bytes, seq<FpWithSats>>, ghost fps: seq<FinalityProvider>) returns (dups: seq<Bytes>)
    requires forall a :: a in fpsByAddr <==> Group(fps, a) != []
    requires forall a :: a in fpsByAddr ==> |fpsByAddr[a]| == |Group(fps, a)|
    ensures dups == OrderedDups(fps)
  {
    dups := [];
    var rest := fpsByAddr.Keys;
    while rest != {}
      invariant rest <= fpsByAddr.Keys
      invariant NoRepeats(dups) && forall a :: a in dups ==> a !in rest
      invariant forall a :: a in dups <==> a in fpsByAddr && a !in rest && IsDup(fps, a)
      decreases |rest|
    {
      var addr :| addr in rest;
      rest := rest - {addr};
      if |fpsByAddr[addr]| < 2 {
        continue;
      }
      dups := dups + [addr];
    }
    forall a
      ensures a in dups <==> IsDup(fps, a)
    {
    }
    OrderDoesNotMatter(fps, dups);
    dups := Sort(Keys.LexGreater, dups);
  }

  /** The keys to delete, group by group. */
  method ChooseDeletions(sats: Sats, fpsByAddr: map<Bytes, seq<FpWithSats>>, dups: seq<Bytes>, ghost fps: seq<FinalityProvider>)
    returns (ok: bool, fpsToDelete: seq<Bytes>)
    requires forall i :: 0 <= i < |dups| ==> IsDup(fps, dups[i])
    requires forall i :: 0 <= i < |dups| ==> dups[i] in fpsByAddr && fpsByAddr[dups[i]] == Map(Unloaded(), Group(fps, dups[i]))
    ensures ok <==> forall i :: 0 <= i < |dups| ==> !NeedsMissing(sats, Group(fps, dups[i]))
    ensures ok ==> fpsToDelete == Deletions(fps, sats, dups)
  {
    hide NeedsMissing, Ranked, Group, Losers;
    fpsToDelete := [];
    for i := 0 to |dups|
      invariant forall j :: 0 <= j < i ==> !NeedsMissing(sats, Group(fps, dups[j]))
      invariant fpsToDelete == Deletions(fps, sats, dups[..i])
    {
      var loaded, ranked := RankGroup(sats, fpsByAddr[dups[i]], Group(fps, dups[i]));
      if !loaded {
        return false, [];
      }
      var losers := seq(|ranked| - 1, j requires 0 <= j < |ranked| - 1 => ranked[j + 1].fp.btcPk);
      LosersAre(sats, Group(fps, dups[i]), losers);
      fpsToDelete := fpsToDelete + losers;
      assert dups[..i + 1][..i] == dups[..i];
    }
    assert dups[..|dups|] == dups;
    ok := true;
  }

  /** For every address all providers but the best one are deleted, in an order that depends
      only on the store; if a needed amount cannot be loaded nothing is deleted. */
  method FpSoftDeleteDupAddr(k: Keeper) returns (ok: bool)
    modifies k`bbnAddrs, k`deleted
    ensures forall a :: a in k.bbnAddrs <==> a in old(k.bbnAddrs) || Uses(k.fps, a)
    ensures ok <==> forall a, i: nat, j: nat :: !UnknownTie(k.sats, Group(k.fps, a), i, j)
    ensures forall i :: 0 <= i < |OrderedDups(k.fps)| ==> IsDup(k.fps, OrderedDups(k.fps)[i])
    ensures k.deleted == if ok then old(k.deleted) + Deletions(k.fps, k.sats, OrderedDups(k.fps)) else old(k.deleted)
    ensures ok && OnePerKey(k.fps) ==> forall n :: 0 <= n < |k.fps| ==>
              (k.fps[n].btcPk in k.deleted[|old(k.deleted)|..] <==> !Survives(k.fps, k.sats, n))
  {
    hide NeedsMissing, Ranked, Group, OrderedDups, Losers, Deletions, Uses, Survives, OnePerKey, UnknownTie;
    var fps, sats := k.fps, k.sats;
    NoUnknownTies(fps, sats);
    var fpsByAddr := CollectGroups(k);
    forall a
      ensures a in fpsByAddr <==> Uses(fps, a)
      ensures a in OrderedDups(fps) <==> IsDup(fps, a)
    {
      GroupOfUnused(fps, a);
      OrderedDupsMembers(fps, a);
    }
    var dups := CollectDupAddrs(fpsByAddr, fps);
    assert forall i :: 0 <= i < |dups| ==> dups[i] in dups;
    var fpsToDelete;
    ok, fpsToDelete := ChooseDeletions(sats, fpsByAddr, dups, fps);
    if !ok {
      return;
    }
    forall a | IsDup(fps, a)
      ensures !NeedsMissing(sats, Group(fps, a))
    {
      assert a in dups;
    }
    for i := 0 to |fpsToDelete|
      invariant k.deleted == old(k.deleted) + fpsToDelete[..i]
      invariant k.bbnAddrs == old(k.bbnAddrs) + fpsByAddr.Keys
    {
      k.SoftDeleteFinalityProvider(fpsToDelete[i]);
    }
    assert fpsToDelete[..|fpsToDelete|] == fpsToDelete;
    assert k.deleted[|old(k.deleted)|..] == fpsToDelete;
    if OnePerKey(fps) {
      forall n | 0 <= n < |fps|
        ensures fps[n].btcPk in fpsToDelete <==> !Survives(fps, sats, n)
      {
        KeptIffSurvives(fps, sats, n);
      }
    }
  }

  lemma NoUnknownTies(fps: seq<FinalityProvider>, sats: Sats)
    ensures (forall a :: IsDup(fps, a) ==> !NeedsMissing(sats, Group(fps, a)))
            <==> forall a, i: nat, j: nat :: !UnknownTie(sats, Group(fps, a), i, j)
  {
    hide NeedsMissing, Group;
    forall a
      ensures NeedsMissing(sats, Group(fps, a)) <==> exists i: nat, j: nat :: UnknownTie(sats, Group(fps, a), i, j)
      ensures NeedsMissing(sats, Group(fps, a)) ==> IsDup(fps, a)
    {
      NeedsMissingMeans(sats, Group(fps, a));
    }
  }
}
