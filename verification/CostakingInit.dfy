/** The upgrade that initialises the co-staking trackers (app/upgrades/v4/upgrades.go). */
module CostakingInit {
  import opened Prelude
  import opened MapSum
  import opened Costaking
  import opened CostakingKeeper

  datatype BtcDelegation = BtcDelegation(stakerAddr: Addr, fpBtcPks: seq<Bytes>, totalSat: nat)

  datatype BabyDelegation = BabyDelegation(delegator: Addr, amount: nat)

  const DefaultRatio: Ratio := 200

  // ----- paginated queries -----

  /** One page of what a query is about, and whether the query for it fails. A query has at least
      one page. */
  datatype Page<T> = Page(items: seq<T>, fails: bool)

  /** What all pages hold, those of failing queries included. */
  function Items<T>(pages: seq<Page<T>>): (r: seq<T>) {
    if pages == [] then []
    else
      var last := |pages| - 1;
      Items(pages[..last]) + pages[last].items
  }

  function FirstFailure<T>(pages: seq<Page<T>>): (n: nat)
    ensures n <= |pages|
    ensures forall i :: 0 <= i < n ==> !pages[i].fails
    ensures n < |pages| ==> pages[n].fails
  {
    if pages == [] then 0
    else
      var n := FirstFailure(pages[..|pages| - 1]);
      if n == |pages| - 1 && !pages[n].fails then n + 1 else n
  }

  predicate AllOk<T(!new)>(pages: seq<Page<T>>) {
    forall i :: 0 <= i < |pages| ==> !pages[i].fails
  }

  // ----- what the delegations add up to -----

  predicate AnyActive(fpBtcPks: seq<Bytes>, fps: set<Bytes>) {
    exists i :: 0 <= i < |fpBtcPks| && fpBtcPks[i] in fps
  }

  predicate ToActive(d: BtcDelegation, fps: set<Bytes>) {
    AnyActive(d.fpBtcPks, fps)
  }

  predicate Counts(d: BtcDelegation, fps: set<Bytes>, a: Addr) {
    d.stakerAddr == a && ToActive(d, fps)
  }

  /** Satoshis of the delegations of `a` to an active finality provider. */
  function SatsOf(dels: seq<BtcDelegation>, fps: set<Bytes>, a: Addr): (n: nat) {
    if dels == [] then 0
    else
      var last := |dels| - 1;
      SatsOf(dels[..last], fps, a) + if Counts(dels[last], fps, a) then dels[last].totalSat else 0
  }

  predicate Stakes(dels: seq<BtcDelegation>, fps: set<Bytes>, a: Addr) {
    exists i :: 0 <= i < |dels| && Counts(dels[i], fps, a)
  }

  function BabyOf(dels: seq<BabyDelegation>, a: Addr): (n: nat) {
    if dels == [] then 0
    else
      var last := |dels| - 1;
      BabyOf(dels[..last], a) + if dels[last].delegator == a then dels[last].amount else 0
  }

  predicate Delegates(dels: seq<BabyDelegation>, a: Addr) {
    exists i :: 0 <= i < |dels| && dels[i].delegator == a
  }

  /** One more delegation adds its satoshis exactly to its own staker, and only if one of its
      providers is active. */
  lemma SatsSnoc(dels: seq<BtcDelegation>, d: BtcDelegation, fps: set<Bytes>, a: Addr)
    ensures SatsOf([], fps, a) == 0
    ensures SatsOf(dels + [d], fps, a)
            == SatsOf(dels, fps, a) + if d.stakerAddr == a && (exists k :: k in d.fpBtcPks && k in fps) then d.totalSat else 0
    ensures Counts(d, fps, a) <==> d.stakerAddr == a && exists k :: k in d.fpBtcPks && k in fps
    ensures Stakes(dels + [d], fps, a) <==> Stakes(dels, fps, a) || Counts(d, fps, a)
  {
    var all := dels + [d];
    assert all[..|dels|] == dels;
    if Stakes(dels, fps, a) {
      var i :| 0 <= i < |dels| && Counts(dels[i], fps, a);
      assert Counts(all[i], fps, a);
    }
    if Counts(d, fps, a) {
      assert Counts(all[|dels|], fps, a);
    }
  }

  lemma BabySnoc(dels: seq<BabyDelegation>, d: BabyDelegation, a: Addr)
    ensures BabyOf([], a) == 0
    ensures BabyOf(dels + [d], a) == BabyOf(dels, a) + if d.delegator == a then d.amount else 0
    ensures Delegates(dels + [d], a) <==> Delegates(dels, a) || d.delegator == a
  {
    var all := dels + [d];
    assert all[..|dels|] == dels;
    if Delegates(dels, a) {
      var i :| 0 <= i < |dels| && dels[i].delegator == a;
      assert all[i].delegator == a;
    }
    if d.delegator == a {
      assert all[|dels|].delegator == a;
    }
  }

  lemma {:induction false} NoStakeNoSats(dels: seq<BtcDelegation>, fps: set<Bytes>, a: Addr)
    ensures !Stakes(dels, fps, a) ==> SatsOf(dels, fps, a) == 0
  {
    if dels != [] {
      var last := |dels| - 1;
      assert dels == dels[..last] + [dels[last]];
      SatsSnoc(dels[..last], dels[last], fps, a);
      NoStakeNoSats(dels[..last], fps, a);
    }
  }

  method DelegatingToActiveFP(fpBtcPks: seq<Bytes>, fps: set<Bytes>) returns (active: bool)
    ensures active <==> AnyActive(fpBtcPks, fps)
  {
    active := false;
    for i := 0 to |fpBtcPks|
      invariant !active && forall j :: 0 <= j < i ==> fpBtcPks[j] !in fps
    {
      if fpBtcPks[i] in fps {
        active := true;
        break;
      }
    }
  }

  // ----- v4: initialise -----

  function Upserted(t: Option<Tracker>, sats: nat, baby: nat, ratio: Ratio): (t': Tracker) {
    match t
    case None => Tracker(1, sats, baby, Score(ratio, baby, sats))
    case Some(t) =>
      Tracker(t.startPeriod, t.activeSatoshis + sats, t.activeBaby + baby,
              Score(ratio, t.activeBaby + baby, t.activeSatoshis + sats))
  }

  function Find(trackers: map<Addr, Tracker>, a: Addr): (t: Option<Tracker>) {
    if a in trackers then Some(trackers[a]) else None
  }

  method UpsertCostakerRewardsTracker(k: Keeper, a: Addr, sats: nat, baby: nat, ratio: Ratio) returns (rt: Tracker)
    modifies k`trackers
    ensures rt == Upserted(Find(old(k.trackers), a), sats, baby, ratio)
    ensures k.trackers == old(k.trackers)[a := rt]
  {
    if a !in k.trackers {
      rt := Tracker(1, sats, baby, 0);
    } else {
      rt := k.trackers[a];
      rt := rt.(activeSatoshis := rt.activeSatoshis + sats);
      rt := rt.(activeBaby := rt.activeBaby + baby);
    }
    rt := rt.(totalScore := Score(ratio, rt.activeBaby, rt.activeSatoshis));
    k.trackers := k.trackers[a := rt];
  }

  /** The trackers after the delegations `dels` have been added to `before`. */
  ghost predicate BtcAdded(before: map<Addr, Tracker>, dels: seq<BtcDelegation>, fps: set<Bytes>, after: map<Addr, Tracker>) {
    forall a :: Find(after, a) == if Stakes(dels, fps, a) then Some(Upserted(Find(before, a), SatsOf(dels, fps, a), 0, DefaultRatio))
                                  else Find(before, a)
  }

  lemma UpsertTwice(t: Option<Tracker>, sats: nat, baby: nat, sats': nat, baby': nat, ratio: Ratio)
    ensures Upserted(Some(Upserted(t, sats, baby, ratio)), sats', baby', ratio)
            == Upserted(t, sats + sats', baby + baby', ratio)
  {
  }

  lemma BtcAddedSnoc(before: map<Addr, Tracker>, dels: seq<BtcDelegation>, fps: set<Bytes>,
                     mid: map<Addr, Tracker>, d: BtcDelegation, after: map<Addr, Tracker>)
    requires BtcAdded(before, dels, fps, mid)
    requires after == if ToActive(d, fps) then mid[d.stakerAddr := Upserted(Find(mid, d.stakerAddr), d.totalSat, 0, DefaultRatio)]
                      else mid
    ensures BtcAdded(before, dels + [d], fps, after)
  {
    hide Score;
    forall a
      ensures Find(after, a) == if Stakes(dels + [d], fps, a)
                                then Some(Upserted(Find(before, a), SatsOf(dels + [d], fps, a), 0, DefaultRatio))
                                else Find(before, a)
    {
      SatsSnoc(dels, d, fps, a);
      NoStakeNoSats(dels, fps, a);
      UpsertTwice(Find(before, a), SatsOf(dels, fps, a), 0, d.totalSat, 0, DefaultRatio);
      assert Find(mid, a) == if Stakes(dels, fps, a) then Some(Upserted(Find(before, a), SatsOf(dels, fps, a), 0, DefaultRatio))
                             else Find(before, a);
    }
  }

  /** One page of delegations. */
  method SaveBTCPage(k: Keeper, page: seq<BtcDelegation>, fps: set<Bytes>,
                     ghost before: map<Addr, Tracker>, ghost done: seq<BtcDelegation>)
    requires BtcAdded(before, done, fps, k.trackers)
    modifies k`trackers
    ensures BtcAdded(before, done + page, fps, k.trackers)
  {
    hide BtcAdded, AnyActive, Upserted;
    assert done + page[..0] == done;
    for i := 0 to |page|
      invariant BtcAdded(before, done + page[..i], fps, k.trackers)
    {
      var d := page[i];
      ghost var mid := k.trackers;
      var active := DelegatingToActiveFP(d.fpBtcPks, fps);
      if active {
        var _ := UpsertCostakerRewardsTracker(k, d.stakerAddr, d.totalSat, 0, DefaultRatio);
      }
      BtcAddedSnoc(before, done + page[..i], fps, mid, d, k.trackers);
      assert done + page[..i] + [d] == done + page[..i + 1];
    }
    assert page[..|page|] == page;
  }

  method SaveBTCStakersRwdTracker(k: Keeper, pages: seq<Page<BtcDelegation>>, fps: set<Bytes>) returns (ok: bool)
    requires |pages| >= 1
    modifies k`trackers
    ensures ok <==> AllOk(pages)
    ensures ok ==> BtcAdded(old(k.trackers), Items(pages), fps, k.trackers)
  {
    var key := 0;
    assert BtcAdded(k.trackers, Items(pages[..0]), fps, k.trackers);
    hide BtcAdded;
    while true
      invariant 0 <= key < |pages|
      invariant forall i :: 0 <= i < key ==> !pages[i].fails
      invariant BtcAdded(old(k.trackers), Items(pages[..key]), fps, k.trackers)
      decreases |pages| - key
    {
      var page := pages[key];
      if page.fails {
        return false;
      }
      SaveBTCPage(k, page.items, fps, old(k.trackers), Items(pages[..key]));
      assert pages[..key + 1][..key] == pages[..key];
      if key + 1 == |pages| {
        break;
      }
      key := key + 1;
    }
    assert pages[..|pages|] == pages;
    ok := true;
  }

  // ----- v4: BABY stakers -----

  /** The table holds the delegators and their sums. */
  ghost predicate Tallies(m: map<Addr, nat>, dels: seq<BabyDelegation>) {
    && (forall a :: a in m <==> Delegates(dels, a))
    && (forall a :: a in m ==> m[a] == BabyOf(dels, a))
  }

  lemma TallySnoc(m: map<Addr, nat>, dels: seq<BabyDelegation>, d: BabyDelegation)
    requires Tallies(m, dels)
    ensures Tallies(m[d.delegator := Get(m, d.delegator) + d.amount], dels + [d])
  {
    forall a
      ensures BabyOf(dels + [d], a) == BabyOf(dels, a) + if d.delegator == a then d.amount else 0
      ensures Delegates(dels + [d], a) <==> Delegates(dels, a) || d.delegator == a
      ensures !Delegates(dels, a) ==> BabyOf(dels, a) == 0
    {
      BabySnoc(dels, d, a);
      NoDelegationNoBaby(dels, a);
    }
    hide Delegates, BabyOf;
  }

  lemma {:induction false} NoDelegationNoBaby(dels: seq<BabyDelegation>, a: Addr)
    ensures !Delegates(dels, a) ==> BabyOf(dels, a) == 0
  {
    if dels != [] {
      var last := |dels| - 1;
      assert dels == dels[..last] + [dels[last]];
      BabySnoc(dels[..last], dels[last], a);
      NoDelegationNoBaby(dels[..last], a);
    }
  }

  /** What the queries deliver before the first one fails. */
  function Delivered<T>(pages: seq<Page<T>>): (r: seq<T>) {
    Items(pages[..FirstFailure(pages)])
  }

  method AddBabyPage(babyStakers: map<Addr, nat>, page: seq<BabyDelegation>, ghost done: seq<BabyDelegation>)
    returns (m: map<Addr, nat>)
    requires Tallies(babyStakers, done)
    ensures Tallies(m, done + page)
  {
    hide Tallies;
    m := babyStakers;
    assert done + page[..0] == done;
    for i := 0 to |page|
      invariant Tallies(m, done + page[..i])
    {
      var addr, amount := page[i].delegator, page[i].amount;
      TallySnoc(m, done + page[..i], page[i]);
      if addr in m {
        m := m[addr := m[addr] + amount];
      } else {
        m := m[addr := amount];
      }
      assert done + page[..i] + [page[i]] == done + page[..i + 1];
    }
    assert page[..|page|] == page;
  }

  method GetValidatorDelegations(pages: seq<Page<BabyDelegation>>, babyStakers: map<Addr, nat>, ghost done: seq<BabyDelegation>)
    returns (ok: bool, m: map<Addr, nat>)
    requires |pages| >= 1 && Tallies(babyStakers, done)
    ensures ok <==> FirstFailure(pages) == |pages|
    ensures Tallies(m, done + Delivered(pages))
  {
    hide Tallies;
    m := babyStakers;
    var key := 0;
    assert done + Items(pages[..0]) == done;
    while true
      invariant 0 <= key < |pages| && key <= FirstFailure(pages)
      invariant Tallies(m, done + Items(pages[..key]))
      decreases |pages| - key
    {
      var page := pages[key];
      if page.fails {
        return false, m;
      }
      m := AddBabyPage(m, page.items, done + Items(pages[..key]));
      assert pages[..key + 1][..key] == pages[..key];
      assert done + Items(pages[..key]) + page.items == done + Items(pages[..key + 1]);
      if key + 1 == |pages| {
        break;
      }
      key := key + 1;
    }
    ok := true;
  }

  /** What is read from the active validators: a failing query ends the whole iteration. */
  function Seen(vals: seq<seq<Page<BabyDelegation>>>): (r: seq<BabyDelegation>) {
    if vals == [] then []
    else
      Delivered(vals[0]) + if FirstFailure(vals[0]) == |vals[0]| then Seen(vals[1..]) else []
  }

  /** A failing query is not reported: the sums so far are returned as if they were complete. */
  method GetAllBABYStakers(vals: seq<seq<Page<BabyDelegation>>>) returns (m: map<Addr, nat>)
    requires forall i :: 0 <= i < |vals| ==> |vals[i]| >= 1
    ensures Tallies(m, Seen(vals))
  {
    hide Delivered, Tallies;
    ghost var done := [];
    m := map[];
    assert Tallies(m, done) by { NothingTallied(); }
    for i := 0 to |vals|
      invariant Tallies(m, done) && done + Seen(vals[i..]) == Seen(vals)
    {
      var ok;
      ok, m := GetValidatorDelegations(vals[i], m, done);
      done := done + Delivered(vals[i]);
      assert vals[i..][0] == vals[i] && vals[i..][1..] == vals[i + 1..];
      if !ok {
        assert Seen(vals[i..]) == Delivered(vals[i]);
        return;
      }
    }
    assert vals[|vals|..] == [] && done + [] == done;
  }

  lemma NothingTallied()
    ensures Tallies(map[], [])
  {
  }

  ghost predicate BabyAdded(before: map<Addr, Tracker>, m: map<Addr, nat>, after: map<Addr, Tracker>) {
    forall a :: Find(after, a) == if a in m then Some(Upserted(Find(before, a), 0, m[a], DefaultRatio)) else Find(before, a)
  }

  /** Adds the BABY amounts in whatever order the table hands them out, and sums the scores. */
  method SaveBABYStakersRwdTracker(k: Keeper, vals: seq<seq<Page<BabyDelegation>>>)
    returns (totalScore: nat, ghost babyStakers: map<Addr, nat>, ghost scores: map<Addr, nat>)
    requires forall i :: 0 <= i < |vals| ==> |vals[i]| >= 1
    modifies k`trackers
    ensures Tallies(babyStakers, Seen(vals)) && BabyAdded(old(k.trackers), babyStakers, k.trackers)
    ensures scores.Keys == babyStakers.Keys && totalScore == Sum(scores)
    ensures forall a :: a in scores ==> a in k.trackers && k.trackers[a].totalScore == scores[a]
  {
    hide Upserted, Sum, Tallies;
    var m := GetAllBABYStakers(vals);
    babyStakers, scores, totalScore := m, map[], 0;
    assert Sum(scores) == 0 by { SumZero(scores); }
    var rest := m.Keys;
    while rest != {}
      invariant rest <= m.Keys && scores.Keys == m.Keys - rest && totalScore == Sum(scores)
      invariant forall a :: Find(k.trackers, a)
                            == if a in m && a !in rest then Some(Upserted(Find(old(k.trackers), a), 0, m[a], DefaultRatio))
                               else Find(old(k.trackers), a)
      invariant forall a :: a in scores ==> a in k.trackers && k.trackers[a].totalScore == scores[a]
      decreases |rest|
    {
      var addr :| addr in rest;
      rest := rest - {addr};
      var rt := UpsertCostakerRewardsTracker(k, addr, 0, m[addr], DefaultRatio);
      SumUpdate(scores, addr, rt.totalScore);
      totalScore := totalScore + rt.totalScore;
      scores := scores[addr := rt.totalScore];
    }
  }

  /** The tracker of `a` after initialisation. */
  function InitTracker(t: Option<Tracker>, dels: seq<BtcDelegation>, fps: set<Bytes>, babies: seq<BabyDelegation>, a: Addr):
    (r: Option<Tracker>)
  {
    if Stakes(dels, fps, a) || Delegates(babies, a)
    then Some(Upserted(t, SatsOf(dels, fps, a), BabyOf(babies, a), DefaultRatio))
    else t
  }

  lemma BothAdded(before: map<Addr, Tracker>, dels: seq<BtcDelegation>, fps: set<Bytes>, mid: map<Addr, Tracker>,
                  babies: seq<BabyDelegation>, m: map<Addr, nat>, after: map<Addr, Tracker>, a: Addr)
    requires BtcAdded(before, dels, fps, mid) && Tallies(m, babies) && BabyAdded(mid, m, after)
    ensures Find(after, a) == InitTracker(Find(before, a), dels, fps, babies, a)
  {
    hide Score, SatsOf, BabyOf, Stakes, Delegates;
    NoStakeNoSats(dels, fps, a);
    NoDelegationNoBaby(babies, a);
    UpsertTwice(Find(before, a), SatsOf(dels, fps, a), 0, 0, BabyOf(babies, a), DefaultRatio);
    assert Find(mid, a) == if Stakes(dels, fps, a) then Some(Upserted(Find(before, a), SatsOf(dels, fps, a), 0, DefaultRatio))
                           else Find(before, a);
    assert a in m <==> Delegates(babies, a);
    assert Find(after, a) == if a in m then Some(Upserted(Find(mid, a), 0, m[a], DefaultRatio)) else Find(mid, a);
  }

  /** Every staker gets a tracker with the sum of their active satoshis over all pages and the
      sum of the BABY that was read; the stored total is the sum of the scores of those who
      hold BABY. Failing BABY queries do not make the upgrade fail, so the BABY it records is
      complete exactly if every delegation from the first failing query on is empty. */
  method InitializeCoStakerRwdsTracker(k: Keeper, pages: seq<Page<BtcDelegation>>, fps: set<Bytes>,
                                       vals: seq<seq<Page<BabyDelegation>>>)
    returns (ok: bool, ghost scores: map<Addr, nat>)
    requires |pages| >= 1 && forall i :: 0 <= i < |vals| ==> |vals[i]| >= 1
    modifies k
    ensures ok <==> AllOk(pages) && Incremented(old(k.View())).Some?
    ensures ok ==> Upgraded(old(k.trackers), Items(pages), fps, vals, k.trackers)
    ensures ok ==> (BabyComplete(old(k.trackers), vals, k.trackers) <==> AllZero(Missed(vals)))
    ensures ok ==> forall a :: a in scores <==> Delegates(Seen(vals), a)
    ensures ok ==> forall a :: a in scores ==> a in k.trackers && scores[a] == k.trackers[a].totalScore
    ensures ok ==> var q := Incremented(old(k.View())).value;
                   k.View() == q.(trackers := k.trackers, current := Some(q.current.value.(totalScore := Sum(scores))))
  {
    hide BtcAdded, BabyAdded, Tallies, InitTracker, Incremented, BabyComplete, AllZero;
    scores := map[];
    ghost var before := k.View();
    ok := SaveBTCStakersRwdTracker(k, pages, fps);
    if !ok {
      return;
    }
    ghost var mid := k.trackers;
    var totalScore;
    ghost var babyStakers;
    totalScore, babyStakers, scores := SaveBABYStakersRwdTracker(k, vals);
    assert forall a :: a in scores <==> Delegates(Seen(vals), a) by { TalliesKeys(babyStakers, Seen(vals)); }
    ghost var after := k.trackers;
    forall a
      ensures Find(after, a) == InitTracker(Find(before.trackers, a), Items(pages), fps, Seen(vals), a)
    {
      BothAdded(before.trackers, Items(pages), fps, mid, Seen(vals), babyStakers, after, a);
    }
    RecordedBabyComplete(before.trackers, Items(pages), fps, vals, after);
    var _ := k.GetCurrentRewardsInitialized();
    IncrementIgnoresTrackers(before, k.View());
    ok := k.UpdateCurrentRewardsTotalScore(totalScore);
  }

  lemma TalliesKeys(m: map<Addr, nat>, dels: seq<BabyDelegation>)
    requires Tallies(m, dels)
    ensures forall a :: a in m <==> Delegates(dels, a)
  {
  }

  lemma IncrementIgnoresTrackers(p: Pool, q: Pool)
    requires q == Initialized(p.(trackers := q.trackers))
    ensures Incremented(q).Some? <==> Incremented(p).Some?
    ensures Incremented(p).Some? ==> Incremented(q).value == Incremented(p).value.(trackers := q.trackers)
  {
    hide PerScore;
  }

  /** On a new store the total is the sum over all trackers: whoever holds no BABY scores zero.
      Every score is the one the stakes give, and the module is solvent. */
  lemma InitializedFromNew(p: Pool, q: Pool, dels: seq<BtcDelegation>, fps: set<Bytes>, babies: seq<BabyDelegation>,
                           scores: map<Addr, nat>)
    requires p.trackers == map[] && p.current.None?
    requires forall a :: Find(q.trackers, a) == InitTracker(None, dels, fps, babies, a)
    requires forall a :: a in scores <==> Delegates(babies, a)
    requires forall a :: a in scores ==> a in q.trackers && scores[a] == q.trackers[a].totalScore
    requires Incremented(p).Some?
    requires var i := Incremented(p).value;
             q == i.(trackers := q.trackers, current := Some(i.current.value.(totalScore := Sum(scores))))
    ensures ScoresCurrent(q.trackers, DefaultRatio)
    ensures Solvent(q) && q.current.value.totalScore == Sum(Scores(q.trackers))
  {
    hide Sum, SatsOf, BabyOf, Stakes, Delegates;
    forall a | a in q.trackers
      ensures q.trackers[a].startPeriod == 1
      ensures q.trackers[a].totalScore == Score(DefaultRatio, q.trackers[a].activeBaby, q.trackers[a].activeSatoshis)
      ensures q.trackers[a].totalScore == Get(scores, a)
      ensures Claim(q.historical, 1, q.trackers[a]) == 0
    {
      assert Find(q.trackers, a) == Some(q.trackers[a]) && Find(q.trackers, a) == InitTracker(None, dels, fps, babies, a);
      NoDelegationNoBaby(babies, a);
      FreshClaim(q.historical, 1, q.trackers[a]);
    }
    SumNonZero(Scores(q.trackers), scores);
    SumZero(Claims(q.historical, 1, q.trackers));
  }

  // ----- what a failing query loses -----

  /** All that is delegated to the active validators. */
  function Everything(vals: seq<seq<Page<BabyDelegation>>>): (r: seq<BabyDelegation>) {
    if vals == [] then [] else Items(vals[0]) + Everything(vals[1..])
  }

  /** What the first failing query and everything after it are about. */
  function Missed(vals: seq<seq<Page<BabyDelegation>>>): (r: seq<BabyDelegation>) {
    if vals == [] then []
    else if FirstFailure(vals[0]) == |vals[0]| then Missed(vals[1..])
    else Items(vals[0][FirstFailure(vals[0])..]) + Everything(vals[1..])
  }

  lemma {:induction false} ItemsConcat<T>(s: seq<Page<T>>, t: seq<Page<T>>)
    ensures Items(s + t) == Items(s) + Items(t)
  {
    if t == [] {
      assert s + t == s;
    } else {
      var last := |t| - 1;
      assert (s + t)[..|s| + last] == s + t[..last];
      ItemsConcat(s, t[..last]);
    }
  }

  lemma DeliveredFirst<T>(pages: seq<Page<T>>)
    ensures Items(pages) == Delivered(pages) + Items(pages[FirstFailure(pages)..])
    ensures FirstFailure(pages) == |pages| ==> Items(pages) == Delivered(pages)
  {
    var n := FirstFailure(pages);
    assert pages == pages[..n] + pages[n..];
    ItemsConcat(pages[..n], pages[n..]);
  }

  /** The delegations fall into those that are read and those that are missed. */
  lemma {:induction false} SeenAndMissed(vals: seq<seq<Page<BabyDelegation>>>)
    ensures Everything(vals) == Seen(vals) + Missed(vals)
  {
    hide Delivered, Items, FirstFailure;
    if vals != [] {
      var rest, first := vals[1..], vals[0];
      SeenAndMissed(rest);
      DeliveredFirst(first);
      if FirstFailure(first) == |first| {
        assert Items(first) + (Seen(rest) + Missed(rest)) == Items(first) + Seen(rest) + Missed(rest);
      } else {
        var missed := Items(first[FirstFailure(first)..]);
        assert Delivered(first) + [] == Delivered(first);
        assert Delivered(first) + missed + Everything(rest) == Delivered(first) + (missed + Everything(rest));
      }
    }
  }

  lemma {:induction false} BabyConcat(s: seq<BabyDelegation>, t: seq<BabyDelegation>, a: Addr)
    ensures BabyOf(s + t, a) == BabyOf(s, a) + BabyOf(t, a)
  {
    if t == [] {
      assert s + t == s;
    } else {
      var last := |t| - 1;
      assert (s + t)[..|s| + last] == s + t[..last];
      BabyConcat(s, t[..last], a);
    }
  }

  ghost predicate AllZero(dels: seq<BabyDelegation>) {
    forall i :: 0 <= i < |dels| ==> dels[i].amount == 0
  }

  ghost predicate NoBaby(dels: seq<BabyDelegation>) {
    forall a: Addr :: BabyOf(dels, a) == 0
  }

  lemma {:induction false} AllZeroIsNoBaby(dels: seq<BabyDelegation>)
    ensures AllZero(dels) <==> NoBaby(dels)
  {
    if dels != [] {
      var last := |dels| - 1;
      var front := dels[..last];
      AllZeroIsNoBaby(front);
      assert forall i :: 0 <= i < last ==> dels[i] == front[i];
      if AllZero(dels) {
        forall a: Addr
          ensures BabyOf(dels, a) == 0
        {
          assert BabyOf(front, a) == 0;
        }
      }
      if NoBaby(dels) {
        forall a: Addr
          ensures BabyOf(front, a) == 0
        {
          assert BabyOf(dels, a) == 0;
        }
        assert BabyOf(dels, dels[last].delegator) == 0;
      }
    }
  }

  function TrackedBaby(trackers: map<Addr, Tracker>, a: Addr): (n: nat) {
    if a in trackers then trackers[a].activeBaby else 0
  }

  /** `after` is what the upgrade makes of `before`. */
  ghost predicate Upgraded(before: map<Addr, Tracker>, dels: seq<BtcDelegation>, fps: set<Bytes>,
                           vals: seq<seq<Page<BabyDelegation>>>, after: map<Addr, Tracker>) {
    forall a :: Find(after, a) == InitTracker(Find(before, a), dels, fps, Seen(vals), a)
  }

  /** The trackers hold the BABY of every delegator. */
  ghost predicate BabyComplete(before: map<Addr, Tracker>, vals: seq<seq<Page<BabyDelegation>>>, after: map<Addr, Tracker>) {
    forall a: Addr :: TrackedBaby(after, a) == TrackedBaby(before, a) + BabyOf(Everything(vals), a)
  }

  lemma TrackedIsSeen(before: map<Addr, Tracker>, dels: seq<BtcDelegation>, fps: set<Bytes>,
                      vals: seq<seq<Page<BabyDelegation>>>, after: map<Addr, Tracker>, a: Addr)
    requires Upgraded(before, dels, fps, vals, after)
    ensures TrackedBaby(after, a) == TrackedBaby(before, a) + BabyOf(Seen(vals), a)
  {
    hide Seen, SatsOf, Stakes, Delegates, BabyOf, Score;
    NoDelegationNoBaby(Seen(vals), a);
    assert Find(after, a) == InitTracker(Find(before, a), dels, fps, Seen(vals), a);
  }

  /** The upgrade records the BABY of every delegator exactly if every delegation from the first
      failing query on is empty. */
  lemma RecordedBabyComplete(before: map<Addr, Tracker>, dels: seq<BtcDelegation>, fps: set<Bytes>,
                             vals: seq<seq<Page<BabyDelegation>>>, after: map<Addr, Tracker>)
    requires Upgraded(before, dels, fps, vals, after)
    ensures BabyComplete(before, vals, after) <==> AllZero(Missed(vals))
  {
    hide Upgraded, AllZero, Seen, Missed, Everything, TrackedBaby, BabyOf;
    AllZeroIsNoBaby(Missed(vals));
    SeenAndMissed(vals);
    forall a: Addr
      ensures TrackedBaby(after, a) == TrackedBaby(before, a) + BabyOf(Everything(vals), a)
              <==> BabyOf(Missed(vals), a) == 0
    {
      TrackedIsSeen(before, dels, fps, vals, after, a);
      BabyConcat(Seen(vals), Missed(vals), a);
    }
    if BabyComplete(before, vals, after) {
      forall a: Addr
        ensures BabyOf(Missed(vals), a) == 0
      {
        assert TrackedBaby(after, a) == TrackedBaby(before, a) + BabyOf(Everything(vals), a);
      }
    }
    if NoBaby(Missed(vals)) {
      forall a: Addr
        ensures TrackedBaby(after, a) == TrackedBaby(before, a) + BabyOf(Everything(vals), a)
      {
        assert BabyOf(Missed(vals), a) == 0;
      }
    }
  }

  predicate NoQueryFails(vals: seq<seq<Page<BabyDelegation>>>) {
    forall i :: 0 <= i < |vals| ==> FirstFailure(vals[i]) == |vals[i]|
  }

  /** Every page holds something, and every delegation is positive. */
  ghost predicate NothingEmpty(vals: seq<seq<Page<BabyDelegation>>>) {
    forall i, j :: 0 <= i < |vals| && 0 <= j < |vals[i]| ==> PositivePage(vals[i][j])
  }

  ghost predicate PositivePage(page: Page<BabyDelegation>) {
    page.items != [] && forall i :: 0 <= i < |page.items| ==> page.items[i].amount > 0
  }

  lemma {:induction false} MissedMeans(vals: seq<seq<Page<BabyDelegation>>>)
    requires NothingEmpty(vals)
    ensures AllZero(Missed(vals)) <==> NoQueryFails(vals)
  {
    if vals != [] {
      var n := FirstFailure(vals[0]);
      var rest := vals[1..];
      assert forall i :: 0 <= i < |rest| ==> rest[i] == vals[i + 1];
      MissedMeans(rest);
      if n == |vals[0]| {
        assert NoQueryFails(vals) <==> NoQueryFails(rest) by {
          if NoQueryFails(rest) {
            assert forall i :: 1 <= i < |vals| ==> vals[i] == rest[i - 1];
          }
        }
      } else {
        FirstItem(vals[0][n..]);
        assert PositivePage(vals[0][n]);
        assert Missed(vals)[0] == vals[0][n].items[0];
      }
    }
  }

  lemma {:induction false} FirstItem<T>(pages: seq<Page<T>>)
    requires pages != [] && pages[0].items != []
    ensures Items(pages) != [] && Items(pages)[0] == pages[0].items[0]
  {
    if |pages| > 1 {
      FirstItem(pages[..|pages| - 1]);
    } else {
      assert Items(pages[..0]) == [];
    }
  }

  /** With positive delegations on every page, the upgrade records all BABY exactly if no query
      fails. */
  lemma CompleteIffNoQueryFails(before: map<Addr, Tracker>, dels: seq<BtcDelegation>, fps: set<Bytes>,
                                vals: seq<seq<Page<BabyDelegation>>>, after: map<Addr, Tracker>)
    requires Upgraded(before, dels, fps, vals, after)
    ensures NoQueryFails(vals) ==> BabyComplete(before, vals, after)
    ensures NothingEmpty(vals) ==> (BabyComplete(before, vals, after) <==> NoQueryFails(vals))
  {
    hide Upgraded, NothingEmpty, AllZero, NoQueryFails, BabyComplete, Missed;
    RecordedBabyComplete(before, dels, fps, vals, after);
    if NoQueryFails(vals) {
      NothingMissed(vals);
    }
    if NothingEmpty(vals) {
      MissedMeans(vals);
    }
  }

  lemma {:induction false} NothingMissed(vals: seq<seq<Page<BabyDelegation>>>)
    requires NoQueryFails(vals)
    ensures AllZero(Missed(vals))
  {
    if vals != [] {
      assert FirstFailure(vals[0]) == |vals[0]|;
      var rest := vals[1..];
      assert forall i :: 0 <= i < |rest| ==> rest[i] == vals[i + 1];
      NothingMissed(rest);
    }
  }

  /** The upgrade of a new store with one active validator whose only query fails: it succeeds,
      and the one delegator has no tracker. */
  method FailureIsSwallowed(a: Addr, amount: nat) returns (ok: bool, tracked: Option<Tracker>, ghost held: nat)
    ensures ok && tracked == None && held == amount
  {
    var k := new Keeper(DefaultRatio, 0);
    var none: seq<BtcDelegation> := [];
    var page := Page([BabyDelegation(a, amount)], true);
    ghost var scores;
    ok, scores := InitializeCoStakerRwdsTracker(k, [Page(none, false)], {}, [[page]]);
    tracked := Find(k.trackers, a);
    held := BabyOf(Everything([[page]]), a);
    OneFailingPage(page, a);
  }

  lemma OneFailingPage(page: Page<BabyDelegation>, a: Addr)
    requires page.fails
    ensures Seen([[page]]) == [] && Everything([[page]]) == page.items
    ensures |page.items| == 1 && page.items[0].delegator == a ==> BabyOf(page.items, a) == page.items[0].amount
  {
    var pages := [page];
    var vals := [pages];
    assert pages[..0] == [] && vals[1..] == [];
    assert FirstFailure(pages) == 0;
    assert Items(pages) == page.items;
    assert Everything(vals) == Items(pages) + Everything([]);
    if |page.items| == 1 {
      assert page.items[..0] == [];
    }
  }
}
