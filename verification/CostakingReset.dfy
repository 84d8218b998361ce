/** The upgrade that resets the co-staking trackers (app/upgrades/v4_2/upgrade.go). */
module CostakingReset {
  import opened Prelude
  import opened MapSum
  import opened Costaking
  import opened CostakingKeeper
  import opened CostakingInit

  datatype ActiveSatsTracked = ActiveSatsTracked(previousActiveSats: nat, currentActiveSats: nat)

  function Zeroed(t: Tracker): (t': Tracker) {
    t.(activeSatoshis := 0)
  }

  /** Zeroes the satoshis of every tracker and remembers those that were not zero. */
  method ZeroOutCoStakerRwdsActiveSats(k: Keeper) returns (accs: map<Addr, ActiveSatsTracked>)
    modifies k`trackers
    ensures k.trackers == ZeroedAll(old(k.trackers)) && accs == Previous(old(k.trackers))
  {
    accs := map[];
    var rest := k.trackers.Keys;
    while rest != {}
      invariant rest <= k.trackers.Keys == old(k.trackers).Keys
      invariant forall a :: a in k.trackers ==>
                  k.trackers[a] == if a in rest then old(k.trackers)[a] else Zeroed(old(k.trackers)[a])
      invariant forall a :: a in accs <==> a in k.trackers && a !in rest && old(k.trackers)[a].activeSatoshis != 0
      invariant forall a :: a in accs ==> accs[a] == ActiveSatsTracked(old(k.trackers)[a].activeSatoshis, 0)
      decreases |rest|
    {
      var a :| a in rest;
      rest := rest - {a};
      var t := k.trackers[a];
      if t.activeSatoshis == 0 {
        continue;
      }
      accs := accs[a := ActiveSatsTracked(t.activeSatoshis, 0)];
      k.trackers := k.trackers[a := t.(activeSatoshis := 0)];
    }
  }

  /** The table after the delegations `dels` have been counted, started from `accs`. */
  ghost predicate Counted(accs: map<Addr, ActiveSatsTracked>, dels: seq<BtcDelegation>, fps: set<Bytes>, after: map<Addr, ActiveSatsTracked>) {
    && (forall a :: a in after <==> a in accs || Stakes(dels, fps, a))
    && (forall a :: a in after ==>
          after[a] == ActiveSatsTracked(if a in accs then accs[a].previousActiveSats else 0, SatsOf(dels, fps, a)))
  }

  lemma CountedSnoc(accs: map<Addr, ActiveSatsTracked>, dels: seq<BtcDelegation>, fps: set<Bytes>,
                    mid: map<Addr, ActiveSatsTracked>, d: BtcDelegation, after: map<Addr, ActiveSatsTracked>)
    requires Counted(accs, dels, fps, mid)
    requires after == if !ToActive(d, fps) then mid
                      else if d.stakerAddr in mid
                      then mid[d.stakerAddr := mid[d.stakerAddr].(currentActiveSats := mid[d.stakerAddr].currentActiveSats + d.totalSat)]
                      else mid[d.stakerAddr := ActiveSatsTracked(0, d.totalSat)]
    ensures Counted(accs, dels + [d], fps, after)
  {
    hide Stakes, SatsOf, ToActive;
    forall a
      ensures a in after <==> a in accs || Stakes(dels + [d], fps, a)
      ensures a in after ==>
                after[a] == ActiveSatsTracked(if a in accs then accs[a].previousActiveSats else 0, SatsOf(dels + [d], fps, a))
    {
      SatsSnoc(dels, d, fps, a);
      NoStakeNoSats(dels, fps, a);
    }
  }

  method CountPage(accs: map<Addr, ActiveSatsTracked>, page: seq<BtcDelegation>, fps: set<Bytes>,
                   ghost start: map<Addr, ActiveSatsTracked>, ghost done: seq<BtcDelegation>)
    returns (r: map<Addr, ActiveSatsTracked>)
    requires Counted(start, done, fps, accs)
    ensures Counted(start, done + page, fps, r)
  {
    hide Counted, AnyActive;
    r := accs;
    assert done + page[..0] == done;
    for i := 0 to |page|
      invariant Counted(start, done + page[..i], fps, r)
    {
      var del := page[i];
      ghost var mid := r;
      var active := DelegatingToActiveFP(del.fpBtcPks, fps);
      if active {
        if del.stakerAddr in r {
          var data := r[del.stakerAddr];
          r := r[del.stakerAddr := data.(currentActiveSats := data.currentActiveSats + del.totalSat)];
        } else {
          r := r[del.stakerAddr := ActiveSatsTracked(0, del.totalSat)];
        }
      }
      CountedSnoc(start, done + page[..i], fps, mid, del, r);
      assert done + page[..i] + [del] == done + page[..i + 1];
    }
    assert page[..|page|] == page;
  }

  method CountActiveSats(accs: map<Addr, ActiveSatsTracked>, pages: seq<Page<BtcDelegation>>, fps: set<Bytes>)
    returns (ok: bool, r: map<Addr, ActiveSatsTracked>)
    requires |pages| >= 1 && forall a :: a in accs ==> accs[a].currentActiveSats == 0
    ensures ok <==> AllOk(pages)
    ensures ok ==> Counted(accs, Items(pages), fps, r)
  {
    r := accs;
    var key := 0;
    assert Counted(accs, Items(pages[..0]), fps, r);
    hide Counted;
    while true
      invariant 0 <= key < |pages|
      invariant forall i :: 0 <= i < key ==> !pages[i].fails
      invariant Counted(accs, Items(pages[..key]), fps, r)
      decreases |pages| - key
    {
      var page := pages[key];
      if page.fails {
        return false, r;
      }
      r := CountPage(r, page.items, fps, accs, Items(pages[..key]));
      assert pages[..key + 1][..key] == pages[..key];
      if key + 1 == |pages| {
        break;
      }
      key := key + 1;
    }
    assert pages[..|pages|] == pages;
    ok := true;
  }

  function Updated(t: Tracker, s: ActiveSatsTracked, ended: nat, ratio: Ratio): (t': Tracker) {
    var sats := t.activeSatoshis + s.currentActiveSats;
    Tracker(if s.currentActiveSats != s.previousActiveSats then ended else t.startPeriod,
            sats, t.activeBaby, Score(ratio, t.activeBaby, sats))
  }

  function UpdatedOne(p: Pool, a: Addr, s: ActiveSatsTracked, ended: nat): (r: Option<Pool>) {
    if a !in p.trackers then Some(p)
    else
      var t := Updated(p.trackers[a], s, ended, p.ratio);
      match if s.currentActiveSats != s.previousActiveSats then Paid(p, a, ended) else Some(p)
      case None => None
      case Some(q) => Some(q.(trackers := q.trackers[a := t]))
  }

  method UpdateCostakerActiveSatsRewardsTracker(k: Keeper, ended: nat, a: Addr, btcAmount: nat, needsCorrection: bool,
                                                ghost s: ActiveSatsTracked) returns (ok: bool)
    requires btcAmount == s.currentActiveSats && needsCorrection == (s.currentActiveSats != s.previousActiveSats)
    modifies k`trackers, k`balance, k`gauges
    ensures ok <==> UpdatedOne(old(k.View()), a, s, ended).Some?
    ensures ok ==> UpdatedOne(old(k.View()), a, s, ended) == Some(k.View())
  {
    hide Paid, Score;
    if a !in k.trackers {
      return true;
    }
    var rt := k.trackers[a];
    rt := rt.(activeSatoshis := rt.activeSatoshis + btcAmount);
    if needsCorrection {
      rt := rt.(startPeriod := ended);
      ok := k.CalculateCostakerRewardsAndSendToGauge(a, ended);
      if !ok {
        return;
      }
    }
    rt := rt.(totalScore := Score(k.ratio, rt.activeBaby, rt.activeSatoshis));
    k.trackers := k.trackers[a := rt];
    ok := true;
  }

  /** What the correction of a costaker pays out. */
  function Correction(p: Pool, a: Addr, s: ActiveSatsTracked, ended: nat): (n: nat) {
    if s.currentActiveSats != s.previousActiveSats && Reward(p, a, ended).Some? then Reward(p, a, ended).value else 0
  }

  ghost predicate UpdateEffect(p: Pool, a: Addr, s: ActiveSatsTracked, ended: nat, q: Pool)
    requires a in p.trackers
  {
    && q == p.(trackers := p.trackers[a := Updated(p.trackers[a], s, ended, p.ratio)], balance := q.balance, gauges := q.gauges)
    && q.balance + Correction(p, a, s, ended) == p.balance
    && Get(q.gauges, a) == Get(p.gauges, a) + Correction(p, a, s, ended)
    && forall b :: b != a ==> Get(q.gauges, b) == Get(p.gauges, b)
  }

  /** The correction can be computed. */
  predicate Computable(p: Pool, a: Addr, s: ActiveSatsTracked, ended: nat) {
    s.currentActiveSats != s.previousActiveSats ==> Reward(p, a, ended).Some?
  }

  lemma UpdatedOneEffect(p: Pool, a: Addr, s: ActiveSatsTracked, ended: nat)
    requires a in p.trackers
    ensures UpdatedOne(p, a, s, ended).Some? <==> Computable(p, a, s, ended) && Correction(p, a, s, ended) <= p.balance
    ensures UpdatedOne(p, a, s, ended).Some? ==> UpdateEffect(p, a, s, ended, UpdatedOne(p, a, s, ended).value)
  {
    hide Score, Reward;
  }

  /** What the corrections of the table pay to the costakers that are not in `rest`. */
  function Corrections(p: Pool, accs: map<Addr, ActiveSatsTracked>, ended: nat, rest: set<Addr>): (m: map<Addr, nat>) {
    map a | a in accs && a in p.trackers && a !in rest :: Correction(p, a, accs[a], ended)
  }

  /** Every correction can be computed, and the account can pay all of them. */
  ghost predicate Payable(p: Pool, accs: map<Addr, ActiveSatsTracked>, ended: nat) {
    && AllComputable(p, accs, ended, {})
    && Sum(Corrections(p, accs, ended, {})) <= p.balance
  }

  ghost predicate AllComputable(p: Pool, accs: map<Addr, ActiveSatsTracked>, ended: nat, rest: set<Addr>) {
    forall a :: a in accs && a in p.trackers && a !in rest ==> Computable(p, a, accs[a], ended)
  }

  /** `q` is `p` after the costakers of the table that are not in `rest` have been updated. */
  ghost predicate UpdatesApplied(p: Pool, accs: map<Addr, ActiveSatsTracked>, ended: nat, rest: set<Addr>, q: Pool) {
    && q == p.(trackers := q.trackers, balance := q.balance, gauges := q.gauges)
    && q.trackers.Keys == p.trackers.Keys
    && (forall a :: a in p.trackers ==>
          q.trackers[a] == if a in accs && a !in rest then Updated(p.trackers[a], accs[a], ended, p.ratio) else p.trackers[a])
    && (forall a :: Get(q.gauges, a) == Get(p.gauges, a) + Get(Corrections(p, accs, ended, rest), a))
    && q.balance + Sum(Corrections(p, accs, ended, rest)) == p.balance
  }

  lemma CorrectionSame(p: Pool, q: Pool, a: Addr, s: ActiveSatsTracked, ended: nat)
    requires a in p.trackers && a in q.trackers && q.trackers[a] == p.trackers[a] && q.historical == p.historical
    ensures Correction(p, a, s, ended) == Correction(q, a, s, ended)
    ensures Computable(p, a, s, ended) <==> Computable(q, a, s, ended)
  {
    hide Times;
  }

  lemma OneCorrectionMore(p: Pool, accs: map<Addr, ActiveSatsTracked>, ended: nat, rest: set<Addr>, a: Addr)
    requires a in rest && a in accs
    ensures a !in p.trackers ==> Corrections(p, accs, ended, rest - {a}) == Corrections(p, accs, ended, rest)
    ensures a in p.trackers ==>
              var c := Correction(p, a, accs[a], ended);
              && Corrections(p, accs, ended, rest - {a}) == Corrections(p, accs, ended, rest)[a := c]
              && a !in Corrections(p, accs, ended, rest)
              && Sum(Corrections(p, accs, ended, rest - {a})) == Sum(Corrections(p, accs, ended, rest)) + c
              && Sum(Corrections(p, accs, ended, rest - {a})) <= Sum(Corrections(p, accs, ended, {}))
  {
    hide Correction;
    var m, m' := Corrections(p, accs, ended, rest), Corrections(p, accs, ended, rest - {a});
    if a in p.trackers {
      assert m' == m[a := Correction(p, a, accs[a], ended)];
      SumUpdate(m, a, Correction(p, a, accs[a], ended));
      SumLe(m', Corrections(p, accs, ended, {}));
    }
  }

  /** One update more: it fails only if the corrections cannot all be paid. */
  lemma UpdateStep(p: Pool, accs: map<Addr, ActiveSatsTracked>, ended: nat, rest: set<Addr>, mid: Pool, a: Addr)
    requires UpdatesApplied(p, accs, ended, rest, mid) && AllComputable(p, accs, ended, rest) && a in rest && a in accs
    ensures UpdatedOne(mid, a, accs[a], ended).None? ==> !Payable(p, accs, ended)
    ensures UpdatedOne(mid, a, accs[a], ended).Some? ==>
              && UpdatesApplied(p, accs, ended, rest - {a}, UpdatedOne(mid, a, accs[a], ended).value)
              && AllComputable(p, accs, ended, rest - {a})
  {
    hide Correction, Corrections, Sum, Computable, Updated;
    OneCorrectionMore(p, accs, ended, rest, a);
    if a in mid.trackers {
      CorrectionSame(p, mid, a, accs[a], ended);
      UpdatedOneEffect(mid, a, accs[a], ended);
      hide UpdatedOne;
    }
  }

  /** Updates every costaker of the table, in whatever order it hands them out. In every order it
      succeeds exactly if all corrections can be computed and paid. */
  method UpdateTrackers(k: Keeper, accs: map<Addr, ActiveSatsTracked>, ended: nat) returns (ok: bool)
    modifies k`trackers, k`balance, k`gauges
    ensures ok <==> Payable(old(k.View()), accs, ended)
    ensures ok ==> UpdatesApplied(old(k.View()), accs, ended, {}, k.View())
  {
    ghost var p := k.View();
    var rest := accs.Keys;
    assert UpdatesApplied(p, accs, ended, rest, p) && AllComputable(p, accs, ended, rest) by { NoneUpdated(p, accs, ended); }
    hide UpdatesApplied, AllComputable, Payable, UpdatedOne;
    while rest != {}
      invariant rest <= accs.Keys && UpdatesApplied(p, accs, ended, rest, k.View()) && AllComputable(p, accs, ended, rest)
      decreases |rest|
    {
      var a :| a in rest;
      UpdateStep(p, accs, ended, rest, k.View(), a);
      rest := rest - {a};
      var tracked := accs[a];
      ok := UpdateCostakerActiveSatsRewardsTracker(k, ended, a, tracked.currentActiveSats,
              tracked.currentActiveSats - tracked.previousActiveSats != 0, tracked);
      if !ok {
        return;
      }
    }
    AllUpdated(p, accs, ended, k.View());
    ok := true;
  }

  lemma NoneUpdated(p: Pool, accs: map<Addr, ActiveSatsTracked>, ended: nat)
    ensures UpdatesApplied(p, accs, ended, accs.Keys, p) && AllComputable(p, accs, ended, accs.Keys)
  {
    assert Corrections(p, accs, ended, accs.Keys) == map[];
    SumZero(Corrections(p, accs, ended, accs.Keys));
  }

  lemma AllUpdated(p: Pool, accs: map<Addr, ActiveSatsTracked>, ended: nat, q: Pool)
    requires UpdatesApplied(p, accs, ended, {}, q) && AllComputable(p, accs, ended, {})
    ensures Payable(p, accs, ended)
  {
    hide Sum, Corrections;
  }

  method GetTotalScore(k: Keeper) returns (totalScore: nat)
    ensures totalScore == Sum(Scores(k.trackers))
  {
    hide Sum;
    totalScore := 0;
    ghost var done: map<Addr, nat> := map[];
    assert Sum(done) == 0 by { SumZero(done); }
    var rest := k.trackers.Keys;
    while rest != {}
      invariant rest <= k.trackers.Keys && done.Keys == k.trackers.Keys - rest && totalScore == Sum(done)
      invariant forall a :: a in done ==> done[a] == k.trackers[a].totalScore
      decreases |rest|
    {
      var a :| a in rest;
      rest := rest - {a};
      SumUpdate(done, a, k.trackers[a].totalScore);
      done := done[a := k.trackers[a].totalScore];
      totalScore := totalScore + k.trackers[a].totalScore;
    }
    assert done == Scores(k.trackers);
  }

  /** The tracker after the reset. One that had no satoshis and has none now is not touched. */
  function ResetTracker(t: Tracker, stakes: bool, sats: nat, ended: nat, ratio: Ratio): (t': Tracker) {
    if t.activeSatoshis == 0 && !stakes then t
    else
      Tracker(if sats != t.activeSatoshis then ended else t.startPeriod, sats, t.activeBaby, Score(ratio, t.activeBaby, sats))
  }

  function ZeroedAll(trackers: map<Addr, Tracker>): (r: map<Addr, Tracker>) {
    map a | a in trackers :: Zeroed(trackers[a])
  }

  function Previous(trackers: map<Addr, Tracker>): (r: map<Addr, ActiveSatsTracked>) {
    map a | a in trackers && trackers[a].activeSatoshis != 0 :: ActiveSatsTracked(trackers[a].activeSatoshis, 0)
  }

  lemma ResetIs(before: map<Addr, Tracker>, dels: seq<BtcDelegation>, fps: set<Bytes>, accs: map<Addr, ActiveSatsTracked>,
                ended: nat, ratio: Ratio, a: Addr)
    requires Counted(Previous(before), dels, fps, accs) && a in before
    ensures (if a in accs then Updated(ZeroedAll(before)[a], accs[a], ended, ratio) else ZeroedAll(before)[a])
            == ResetTracker(before[a], Stakes(dels, fps, a), SatsOf(dels, fps, a), ended, ratio)
    ensures a in accs ==> accs[a] == ActiveSatsTracked(before[a].activeSatoshis, SatsOf(dels, fps, a))
    ensures a !in accs ==> before[a].activeSatoshis == 0 == SatsOf(dels, fps, a)
  {
    hide Score, SatsOf, Stakes;
    NoStakeNoSats(dels, fps, a);
  }

  lemma ZeroedPeriod(p: Pool, z: Pool)
    requires z == p.(trackers := ZeroedAll(p.trackers))
    ensures Incremented(z).Some? <==> Incremented(p).Some?
    ensures Incremented(p).Some? ==>
              var q := Incremented(p).value;
              && Incremented(z).value == q.(trackers := ZeroedAll(p.trackers))
              && q.trackers == p.trackers && q.ratio == p.ratio && q.gauges == p.gauges && q.balance == p.balance
              && q.current.Some? && ZeroedAll(p.trackers).Keys == p.trackers.Keys
  {
    hide PerScore;
  }

  /** What the reset pays to a costaker: what was earned, if the satoshis changed. */
  function ResetPay(q: Pool, a: Addr, sats: nat, ended: nat): (n: nat)
    requires a in q.trackers
  {
    if sats != q.trackers[a].activeSatoshis && Reward(q, a, ended).Some? then Reward(q, a, ended).value else 0
  }

  function ResetPays(q: Pool, dels: seq<BtcDelegation>, fps: set<Bytes>, ended: nat): (m: map<Addr, nat>) {
    map a | a in q.trackers :: ResetPay(q, a, SatsOf(dels, fps, a), ended)
  }

  /** The period can end, what corrected costakers have earned can be computed, and the account
      can pay all of it. */
  ghost predicate ResetPayable(p: Pool, dels: seq<BtcDelegation>, fps: set<Bytes>) {
    && Incremented(p).Some?
    && var q, ended := Incremented(p).value, Initialized(p).current.value.period;
    && (forall a :: a in q.trackers && SatsOf(dels, fps, a) != q.trackers[a].activeSatoshis ==> Reward(q, a, ended).Some?)
    && Sum(ResetPays(q, dels, fps, ended)) <= q.balance
  }

  /** The pool after the reset. */
  ghost predicate ResetTo(p: Pool, dels: seq<BtcDelegation>, fps: set<Bytes>, r: Pool) {
    && Incremented(p).Some?
    && var q, ended := Incremented(p).value, Initialized(p).current.value.period;
    && q.current.Some?
    && r == q.(trackers := r.trackers, balance := r.balance, gauges := r.gauges,
               current := Some(q.current.value.(totalScore := Sum(Scores(r.trackers)))))
    && r.trackers.Keys == p.trackers.Keys
    && (forall a :: a in p.trackers ==>
          r.trackers[a] == ResetTracker(p.trackers[a], Stakes(dels, fps, a), SatsOf(dels, fps, a), ended, p.ratio))
    && (forall a :: Get(r.gauges, a) == Get(p.gauges, a) + Get(ResetPays(q, dels, fps, ended), a))
    && r.balance + Sum(ResetPays(q, dels, fps, ended)) == p.balance
  }

  /** Zeroed satoshis do not matter for what is paid. */
  lemma CorrectionPays(q: Pool, z: Pool, a: Addr, ended: nat, s: ActiveSatsTracked)
    requires a in q.trackers && z == q.(trackers := ZeroedAll(q.trackers)) && s.previousActiveSats == q.trackers[a].activeSatoshis
    ensures Correction(z, a, s, ended) == ResetPay(q, a, s.currentActiveSats, ended)
    ensures Computable(z, a, s, ended) <==> (s.currentActiveSats != q.trackers[a].activeSatoshis ==> Reward(q, a, ended).Some?)
  {
    hide Times;
  }

  /** The corrections of the table are the payments of the reset. */
  lemma CorrectionsAreResetPays(q: Pool, z: Pool, dels: seq<BtcDelegation>, fps: set<Bytes>, accs: map<Addr, ActiveSatsTracked>,
                                ended: nat)
    requires z == q.(trackers := ZeroedAll(q.trackers)) && Counted(Previous(q.trackers), dels, fps, accs)
    ensures var corrections, pays := Corrections(z, accs, ended, {}), ResetPays(q, dels, fps, ended);
            && Sum(corrections) == Sum(pays)
            && forall a :: Get(corrections, a) == Get(pays, a)
    ensures AllComputable(z, accs, ended, {})
            <==> forall a :: a in q.trackers && SatsOf(dels, fps, a) != q.trackers[a].activeSatoshis ==> Reward(q, a, ended).Some?
  {
    hide Sum, Counted, Stakes, SatsOf, Updated, ResetTracker, Reward, Correction, ResetPay, Previous, Computable;
    var corrections, pays := Corrections(z, accs, ended, {}), ResetPays(q, dels, fps, ended);
    forall a | a in q.trackers
      ensures a in accs ==> Correction(z, a, accs[a], ended) == pays[a]
      ensures a in accs ==>
                (Computable(z, a, accs[a], ended)
                 <==> (SatsOf(dels, fps, a) != q.trackers[a].activeSatoshis ==> Reward(q, a, ended).Some?))
      ensures a !in accs ==> pays[a] == 0 && SatsOf(dels, fps, a) == q.trackers[a].activeSatoshis
    {
      ResetIs(q.trackers, dels, fps, accs, ended, q.ratio, a);
      if a in accs {
        CorrectionPays(q, z, a, ended, accs[a]);
      } else {
        NoChangeNoPay(q, a, ended);
      }
    }
    SumNonZero(pays, corrections);
  }

  lemma NoChangeNoPay(q: Pool, a: Addr, ended: nat)
    requires a in q.trackers
    ensures ResetPay(q, a, q.trackers[a].activeSatoshis, ended) == 0
  {
  }

  lemma ResetReached(p: Pool, z: Pool, dels: seq<BtcDelegation>, fps: set<Bytes>, accs: map<Addr, ActiveSatsTracked>, u: Pool)
    requires z == p.(trackers := ZeroedAll(p.trackers)) && Incremented(z).Some?
    requires Counted(Previous(p.trackers), dels, fps, accs)
    requires UpdatesApplied(Incremented(z).value, accs, Initialized(p).current.value.period, {}, u) && u.current.Some?
    ensures ResetTo(p, dels, fps, u.(current := Some(u.current.value.(totalScore := Sum(Scores(u.trackers))))))
  {
    hide Sum, Counted, Stakes, SatsOf, Updated, ResetTracker, Incremented, ZeroedAll, Scores, Previous, Corrections, ResetPays;
    var ended := Initialized(p).current.value.period;
    ZeroedPeriod(p, z);
    CorrectionsAreResetPays(Incremented(p).value, Incremented(z).value, dels, fps, accs, ended);
    forall a | a in p.trackers
      ensures a in u.trackers
      ensures u.trackers[a] == ResetTracker(p.trackers[a], Stakes(dels, fps, a), SatsOf(dels, fps, a), ended, p.ratio)
    {
      ResetIs(p.trackers, dels, fps, accs, ended, p.ratio, a);
    }
  }

  lemma PayableIsResetPayable(p: Pool, z: Pool, dels: seq<BtcDelegation>, fps: set<Bytes>, accs: map<Addr, ActiveSatsTracked>)
    requires z == p.(trackers := ZeroedAll(p.trackers)) && Incremented(z).Some?
    requires Counted(Previous(p.trackers), dels, fps, accs)
    ensures Payable(Incremented(z).value, accs, Initialized(p).current.value.period) <==> ResetPayable(p, dels, fps)
  {
    hide Sum, Counted, SatsOf, Incremented, ZeroedAll, Previous, Corrections, ResetPays, AllComputable, Reward;
    ZeroedPeriod(p, z);
    CorrectionsAreResetPays(Incremented(p).value, Incremented(z).value, dels, fps, accs, Initialized(p).current.value.period);
  }

  /** Every tracker's satoshis become the sum of that staker's active delegations to active
      providers over all pages, the BABY amount stays, the start period moves only if the
      satoshis changed (and then the costaker is paid), and the total is the sum of the scores.
      The reset succeeds exactly if no query fails and the payments can be made, which a solvent
      pool always can, and neither makes nor loses coins. */
  method ResetCoStakerRwdsTracker(k: Keeper, pages: seq<Page<BtcDelegation>>, fps: set<Bytes>) returns (ok: bool)
    requires |pages| >= 1
    modifies k
    ensures ok <==> AllOk(pages) && ResetPayable(old(k.View()), Items(pages), fps)
    ensures ok ==> ResetTo(old(k.View()), Items(pages), fps, k.View())
    ensures ok ==> Coins(k.View()) == Coins(old(k.View()))
    ensures old(Solvent(k.View())) ==> (ok <==> AllOk(pages))
    ensures ok && old(Solvent(k.View())) ==> (Solvent(k.View()) <==> Affordable(old(k.View()), Items(pages), fps))
    ensures ok && old(Solvent(k.View())) && NoneRises(old(k.View()), Items(pages), fps) ==> Solvent(k.View())
  {
    hide Counted, UpdatesApplied, Payable, ResetPayable, ResetTo, Solvent, Incremented, Coins, ZeroedAll, Affordable, NoneRises;
    ghost var p, dels := k.View(), Items(pages);
    if Solvent(p) {
      SolventPayable(p, dels, fps);
    }
    var accs := ZeroOutCoStakerRwdsActiveSats(k);
    ghost var z := k.View();
    ZeroedPeriod(p, z);
    var endedPeriod := k.IncrementRewardsPeriod();
    if endedPeriod.None? {
      assert !ResetPayable(p, dels, fps) by { NoPeriodNotPayable(p, dels, fps); }
      return false;
    }
    var counted;
    ok, counted := CountActiveSats(accs, pages, fps);
    if !ok {
      return;
    }
    PayableIsResetPayable(p, z, dels, fps, counted);
    ok := UpdateTrackers(k, counted, endedPeriod.value);
    if !ok {
      return;
    }
    ResetReached(p, z, dels, fps, counted, k.View());
    var totalScore := GetTotalScore(k);
    k.current := Some(k.current.value.(totalScore := totalScore));
    ResetKeepsCoins(p, dels, fps, k.View());
    if Solvent(p) {
      ResetSolventIff(p, dels, fps, k.View());
      if NoneRises(p, dels, fps) {
        ResetStaysSolvent(p, dels, fps, k.View());
      }
    }
  }

  lemma NoPeriodNotPayable(p: Pool, dels: seq<BtcDelegation>, fps: set<Bytes>)
    requires Incremented(p).None?
    ensures !ResetPayable(p, dels, fps)
  {
  }

  // ----- solvency -----

  lemma {:induction false} GaugesSum(before: map<Addr, nat>, pays: map<Addr, nat>, after: map<Addr, nat>)
    requires forall a :: Get(after, a) == Get(before, a) + Get(pays, a)
    ensures Sum(after) == Sum(before) + Sum(pays)
  {
    hide Sum;
    var keys := before.Keys + pays.Keys + after.Keys;
    var b, c, d := OnKeys(before, keys), OnKeys(pays, keys), OnKeys(after, keys);
    SumNonZero(b, before);
    SumNonZero(c, pays);
    SumNonZero(d, after);
    SumAdd(b, c, d);
  }

  function OnKeys(m: map<Addr, nat>, keys: set<Addr>): (r: map<Addr, nat>) {
    map a | a in keys :: Get(m, a)
  }

  lemma ResetKeepsCoins(p: Pool, dels: seq<BtcDelegation>, fps: set<Bytes>, r: Pool)
    requires ResetTo(p, dels, fps, r)
    ensures Coins(r) == Coins(p)
  {
    hide Sum, ResetPays, Incremented, ResetTracker, Stakes, SatsOf;
    GaugesSum(p.gauges, ResetPays(Incremented(p).value, dels, fps, Initialized(p).current.value.period), r.gauges);
  }

  lemma EndedPeriod(p: Pool)
    requires Solvent(p)
    ensures Incremented(p).Some?
    ensures var q, ended := Incremented(p).value, Initialized(p).current.value.period;
            && Recorded(q) && Backed(q) && q.current.Some? && q.current.value.period == ended + 1
            && q.current.value.rewards == 0 && q.trackers == p.trackers && q.balance == p.balance && q.ratio == p.ratio
            && forall a :: a in q.trackers ==> q.trackers[a].startPeriod <= ended
  {
    InitializedSolvent(p);
    hide Backed, Sum, Incremented;
    IncrementedInitializes(p);
    IncrementKeeps(Initialized(p));
  }

  /** The reward of a costaker is the claim without the fraction of a coin. */
  lemma RewardTruncates(q: Pool, a: Addr, ended: nat)
    requires Recorded(q) && q.current.value.period == ended + 1 && a in q.trackers
    ensures Reward(q, a, ended) == Some(Claim(q.historical, ended, q.trackers[a]) / DecimalRewards)
  {
    if q.trackers[a].totalScore != 0 {
      RewardIsClaim(q, a);
    } else {
      NoScoreNoClaim(q.historical, ended, q.trackers[a]);
    }
  }

  function InUnits(pays: map<Addr, nat>): (m: map<Addr, nat>)
    ensures m.Keys == pays.Keys
  {
    map a | a in pays :: Times(pays[a], DecimalRewards)
  }

  lemma InUnitsSum(pays: map<Addr, nat>)
    ensures Sum(InUnits(pays)) == Sum(pays) * DecimalRewards
  {
    SumTimes(pays, DecimalRewards, InUnits(pays));
  }

  lemma PayWithinClaim(q: Pool, a: Addr, sats: nat, ended: nat)
    requires Recorded(q) && q.current.value.period == ended + 1 && a in q.trackers
    ensures Reward(q, a, ended).Some?
    ensures Times(ResetPay(q, a, sats, ended), DecimalRewards) <= Claim(q.historical, ended, q.trackers[a])
  {
    hide Recorded, Claim, Reward;
    RewardTruncates(q, a, ended);
  }

  lemma PaysWithinClaims(q: Pool, dels: seq<BtcDelegation>, fps: set<Bytes>, ended: nat)
    requires Recorded(q) && Backed(q) && q.current.value.period == ended + 1
    ensures forall a :: a in q.trackers ==> Reward(q, a, ended).Some?
    ensures Sum(ResetPays(q, dels, fps, ended)) <= q.balance
  {
    hide Recorded, Sum, SatsOf, Claim, Reward, Times, ResetPay;
    var pays, claims := ResetPays(q, dels, fps, ended), Claims(q.historical, ended, q.trackers);
    forall a | a in q.trackers
      ensures Reward(q, a, ended).Some? && InUnits(pays)[a] <= claims[a]
    {
      PayWithinClaim(q, a, SatsOf(dels, fps, a), ended);
    }
    InUnitsSum(pays);
    SumLe(InUnits(pays), claims);
  }

  /** A solvent pool can make all payments. */
  lemma SolventPayable(p: Pool, dels: seq<BtcDelegation>, fps: set<Bytes>)
    requires Solvent(p)
    ensures ResetPayable(p, dels, fps)
  {
    hide Solvent, Recorded, Backed, Sum, Incremented, SatsOf, Reward, ResetPays;
    EndedPeriod(p);
    PaysWithinClaims(Incremented(p).value, dels, fps, Initialized(p).current.value.period);
  }

  // What the reset does to the claims of trackers that keep their satoshis.

  function ClaimAfter(q: Pool, dels: seq<BtcDelegation>, fps: set<Bytes>, ended: nat, a: Addr): (n: nat)
    requires a in q.trackers
  {
    Claim(q.historical, ended, ResetTracker(q.trackers[a], Stakes(dels, fps, a), SatsOf(dels, fps, a), ended, q.ratio))
  }

  function ClaimsAfter(q: Pool, dels: seq<BtcDelegation>, fps: set<Bytes>, ended: nat): (m: map<Addr, nat>) {
    map a | a in q.trackers :: ClaimAfter(q, dels, fps, ended, a)
  }

  /** By how much the claims of trackers that keep their satoshis rise. */
  function Rises(q: Pool, dels: seq<BtcDelegation>, fps: set<Bytes>, ended: nat): (m: map<Addr, nat>) {
    map a | a in q.trackers ::
      Rise(SatsOf(dels, fps, a) == q.trackers[a].activeSatoshis,
           Claim(q.historical, ended, q.trackers[a]), ClaimAfter(q, dels, fps, ended, a))
  }

  function Rise(kept: bool, before: nat, after: nat): (n: nat) {
    if kept && before < after then after - before else 0
  }

  /** By how much they fall, and the fractions of coins that corrected costakers lose. */
  function Reliefs(q: Pool, dels: seq<BtcDelegation>, fps: set<Bytes>, ended: nat): (m: map<Addr, nat>) {
    map a | a in q.trackers ::
      Relief(SatsOf(dels, fps, a) == q.trackers[a].activeSatoshis,
             Claim(q.historical, ended, q.trackers[a]), ClaimAfter(q, dels, fps, ended, a))
  }

  function Relief(kept: bool, before: nat, after: nat): (n: nat) {
    if !kept then before % DecimalRewards else if after < before then before - after else 0
  }

  /** The rising claims are covered by what the account has to spare, by the falling claims and by
      the fractions that are not paid. */
  ghost predicate Affordable(p: Pool, dels: seq<BtcDelegation>, fps: set<Bytes>) {
    && Incremented(p).Some?
    && var q, ended := Incremented(p).value, Initialized(p).current.value.period;
       Sum(Claims(q.historical, ended, q.trackers)) + Sum(Rises(q, dels, fps, ended))
       <= DecimalRewards * p.balance + Sum(Reliefs(q, dels, fps, ended))
  }

  lemma ClaimSheet(q: Pool, dels: seq<BtcDelegation>, fps: set<Bytes>, ended: nat, a: Addr)
    requires Recorded(q) && q.current.value.period == ended + 1 && a in q.trackers
    ensures Claim(q.historical, ended, q.trackers[a]) + Rises(q, dels, fps, ended)[a]
            == InUnits(ResetPays(q, dels, fps, ended))[a] + ClaimAfter(q, dels, fps, ended, a) + Reliefs(q, dels, fps, ended)[a]
  {
    hide Recorded, SatsOf, Stakes, Claim, Score, Reward;
    var t, sats := q.trackers[a], SatsOf(dels, fps, a);
    if sats == t.activeSatoshis {
      NoChangeNoPay(q, a, ended);
    } else {
      RewardTruncates(q, a, ended);
      NoStakeNoSats(dels, fps, a);
      FreshClaim(q.historical, ended, ResetTracker(t, Stakes(dels, fps, a), sats, ended, q.ratio));
    }
  }

  /** Over all trackers: claims and rises are what is paid, what is left owed and what is saved. */
  lemma BalanceSheet(q: Pool, dels: seq<BtcDelegation>, fps: set<Bytes>, ended: nat)
    requires Recorded(q) && q.current.value.period == ended + 1
    ensures Sum(Claims(q.historical, ended, q.trackers)) + Sum(Rises(q, dels, fps, ended))
            == Sum(ResetPays(q, dels, fps, ended)) * DecimalRewards + Sum(ClaimsAfter(q, dels, fps, ended))
               + Sum(Reliefs(q, dels, fps, ended))
  {
    var claims, rises := Claims(q.historical, ended, q.trackers), Rises(q, dels, fps, ended);
    var paid, after, reliefs := InUnits(ResetPays(q, dels, fps, ended)), ClaimsAfter(q, dels, fps, ended), Reliefs(q, dels, fps, ended);
    InUnitsSum(ResetPays(q, dels, fps, ended));
    hide Recorded, Sum, Claim, Rise, Relief, ClaimAfter, ResetPay, SatsOf;
    var left := map a | a in q.trackers :: claims[a] + rises[a];
    var part := map a | a in q.trackers :: paid[a] + after[a];
    SumAdd(claims, rises, left);
    SumAdd(paid, after, part);
    forall a | a in q.trackers
      ensures left[a] == part[a] + reliefs[a]
    {
      ClaimSheet(q, dels, fps, ended, a);
    }
    SumAdd(part, reliefs, left);
  }

  /** The reset keeps a solvent pool solvent exactly if the rising claims are covered. */
  lemma ResetSolventIff(p: Pool, dels: seq<BtcDelegation>, fps: set<Bytes>, r: Pool)
    requires Solvent(p) && ResetTo(p, dels, fps, r)
    ensures Solvent(r) <==> Affordable(p, dels, fps)
  {
    hide Solvent, Recorded, Sum, Incremented, SatsOf, Stakes, Rises, Reliefs, ResetPays, Claims, ClaimsAfter, ResetTracker, Scores;
    EndedPeriod(p);
    var q, ended := Incremented(p).value, Initialized(p).current.value.period;
    ResetRecorded(p, q, dels, fps, r);
    ClaimsOfReset(p, q, dels, fps, ended, r);
    hide ResetTo;
    BalanceSheet(q, dels, fps, ended);
    SolventIsBacked(r);
  }

  lemma ClaimsOfReset(p: Pool, q: Pool, dels: seq<BtcDelegation>, fps: set<Bytes>, ended: nat, r: Pool)
    requires ResetTo(p, dels, fps, r) && Incremented(p) == Some(q) && ended == Initialized(p).current.value.period
    requires q.trackers == p.trackers && q.ratio == p.ratio
    ensures r.historical == q.historical
    ensures Claims(r.historical, ended, r.trackers) == ClaimsAfter(q, dels, fps, ended)
  {
    hide Sum, Incremented, SatsOf, Stakes, Claim, ResetTracker, ResetPays;
  }

  lemma SolventIsBacked(r: Pool)
    requires Recorded(r) && r.current.value.totalScore == Sum(Scores(r.trackers))
    ensures Solvent(r) <==> Backed(r)
  {
  }

  lemma ResetRecorded(p: Pool, q: Pool, dels: seq<BtcDelegation>, fps: set<Bytes>, r: Pool)
    requires ResetTo(p, dels, fps, r) && Incremented(p) == Some(q) && Recorded(q)
    requires q.current.value.period == Initialized(p).current.value.period + 1
    requires forall a :: a in p.trackers ==> p.trackers[a].startPeriod < q.current.value.period
    ensures Recorded(r)
  {
    hide Sum, Incremented, SatsOf, Stakes, Score, ResetPays;
    forall a | a in r.trackers
      ensures InTime(r.trackers[a], r.current.value.period)
    {
    }
  }

  // ----- what the upgrade promises -----

  /** After the reset every tracker has the satoshis of its active delegations and the BABY it
      had; it starts anew exactly if its satoshis changed; current scores stay current. */
  lemma ResetSets(p: Pool, dels: seq<BtcDelegation>, fps: set<Bytes>, r: Pool, a: Addr)
    requires ResetTo(p, dels, fps, r) && a in p.trackers
    ensures a in r.trackers && r.trackers[a].activeSatoshis == SatsOf(dels, fps, a)
    ensures r.trackers[a].activeBaby == p.trackers[a].activeBaby
    ensures r.trackers[a].startPeriod == if SatsOf(dels, fps, a) != p.trackers[a].activeSatoshis
                                         then Initialized(p).current.value.period else p.trackers[a].startPeriod
    ensures ScoresCurrent(p.trackers, p.ratio) ==>
              r.trackers[a].totalScore == Score(p.ratio, r.trackers[a].activeBaby, r.trackers[a].activeSatoshis)
    ensures r.current.Some? && r.current.value.totalScore == Sum(Scores(r.trackers))
  {
    hide Score, Sum, SatsOf, Stakes, Incremented, Reward;
    NoStakeNoSats(dels, fps, a);
  }

  /** Which trackers the reset leaves alone. */
  lemma ResetUnchanged(t: Tracker, dels: seq<BtcDelegation>, fps: set<Bytes>, a: Addr, ended: nat, ratio: Ratio)
    ensures ResetTracker(t, Stakes(dels, fps, a), SatsOf(dels, fps, a), ended, ratio) == t
            <==> && t.activeSatoshis == SatsOf(dels, fps, a)
                 && ((t.activeSatoshis == 0 && !Stakes(dels, fps, a))
                     || t.totalScore == Score(ratio, t.activeBaby, t.activeSatoshis))
  {
    NoStakeNoSats(dels, fps, a);
    hide Score, SatsOf, Stakes;
  }

  /** A tracker that keeps its satoshis and its start period keeps its claim exactly if its stored
      score was current. */
  lemma StaleScore(historical: map<nat, nat>, ended: nat, t: Tracker, ratio: Ratio)
    requires t.startPeriod in historical && ended in historical && historical[t.startPeriod] < historical[ended]
    requires t.activeSatoshis != 0
    ensures Claim(historical, ended, ResetTracker(t, true, t.activeSatoshis, ended, ratio)) == Claim(historical, ended, t)
            <==> t.totalScore == Score(ratio, t.activeBaby, t.activeSatoshis)
  {
    var score, rise := Score(ratio, t.activeBaby, t.activeSatoshis), historical[ended] - historical[t.startPeriod];
    hide Score;
    if score < t.totalScore {
      TimesMore(rise, score, t.totalScore);
    } else if t.totalScore < score {
      TimesMore(rise, t.totalScore, score);
    }
  }

  lemma TimesMore(a: nat, b: nat, c: nat)
    requires a > 0 && b < c
    ensures Times(a, b) < Times(a, c)
  {
  }

  /** No tracker that keeps its satoshis has a stored score below the current one. */
  ghost predicate NoneRises(p: Pool, dels: seq<BtcDelegation>, fps: set<Bytes>) {
    forall a :: a in p.trackers && SatsOf(dels, fps, a) == p.trackers[a].activeSatoshis ==>
                  Score(p.ratio, p.trackers[a].activeBaby, p.trackers[a].activeSatoshis) <= p.trackers[a].totalScore
  }

  lemma LowerScoreLowerClaim(historical: map<nat, nat>, ended: nat, t: Tracker, t': Tracker)
    requires t'.startPeriod == t.startPeriod && t'.totalScore <= t.totalScore
    ensures Claim(historical, ended, t') <= Claim(historical, ended, t)
  {
    if t'.totalScore < t.totalScore && Claim(historical, ended, t') > 0 {
      TimesMore(historical[ended] - historical[t.startPeriod], t'.totalScore, t.totalScore);
    }
  }

  lemma NothingRises(q: Pool, dels: seq<BtcDelegation>, fps: set<Bytes>, ended: nat)
    requires NoneRises(q, dels, fps)
    ensures Sum(Rises(q, dels, fps, ended)) == 0
  {
    hide SatsOf, Stakes, Claim, Score, Sum;
    forall a | a in q.trackers
      ensures Rises(q, dels, fps, ended)[a] == 0
    {
      var t := q.trackers[a];
      if SatsOf(dels, fps, a) == t.activeSatoshis {
        LowerScoreLowerClaim(q.historical, ended, t, ResetTracker(t, Stakes(dels, fps, a), SatsOf(dels, fps, a), ended, q.ratio));
      }
    }
    SumZero(Rises(q, dels, fps, ended));
  }

  /** Then no claim rises and the reset keeps a solvent pool solvent. */
  lemma ResetStaysSolvent(p: Pool, dels: seq<BtcDelegation>, fps: set<Bytes>, r: Pool)
    requires Solvent(p) && ResetTo(p, dels, fps, r) && NoneRises(p, dels, fps)
    ensures Solvent(r)
  {
    hide Solvent, Recorded, Sum, Incremented, SatsOf, Score, Rises, Reliefs, ResetTo, Claims;
    EndedPeriod(p);
    ResetSolventIff(p, dels, fps, r);
    NothingRises(Incremented(p).value, dels, fps, Initialized(p).current.value.period);
  }

  /** Current scores do not rise. */
  lemma CurrentNoneRises(p: Pool, dels: seq<BtcDelegation>, fps: set<Bytes>)
    requires ScoresCurrent(p.trackers, p.ratio)
    ensures NoneRises(p, dels, fps)
  {
  }

  /** On a solvent pool with current scores the reset is payable and leaves such a pool behind. */
  lemma ResetKeeps(p: Pool, dels: seq<BtcDelegation>, fps: set<Bytes>, r: Pool)
    requires Solvent(p) && ScoresCurrent(p.trackers, p.ratio) && ResetTo(p, dels, fps, r)
    ensures ResetPayable(p, dels, fps)
    ensures Solvent(r) && ScoresCurrent(r.trackers, r.ratio) && r.ratio == p.ratio && Coins(r) == Coins(p)
  {
    hide Solvent, ResetPayable, Sum, Incremented, SatsOf, Stakes, Score, NoneRises, ResetPays, ResetTracker;
    SolventPayable(p, dels, fps);
    CurrentNoneRises(p, dels, fps);
    ResetStaysSolvent(p, dels, fps, r);
    ResetKeepsCoins(p, dels, fps, r);
    assert r.ratio == p.ratio by { EndedPeriod(p); }
    forall a | a in r.trackers
      ensures r.trackers[a].totalScore == Score(r.ratio, r.trackers[a].activeBaby, r.trackers[a].activeSatoshis)
    {
      ResetSets(p, dels, fps, r, a);
    }
  }

  // One costaker with 10 satoshis and 2000 BABY, which give a score of 10, but a stored score `s`.

  function StalePool(a: Addr, s: nat): (p: Pool) {
    Pool(map[a := Tracker(0, 10, 2000, s)], Some(CurrentRewards(s * DecimalRewards, 1, s)), map[0 := 0], s, map[], 200)
  }

  function StaleDelegations(a: Addr, fp: Bytes): (dels: seq<BtcDelegation>) {
    [BtcDelegation(a, [fp], 10)]
  }

  lemma SumOne(m: map<Addr, nat>, a: Addr)
    requires m.Keys == {a}
    ensures Sum(m) == m[a]
  {
    SumRemove(m, a);
    SumZero(m - {a});
  }

  lemma StaleSats(a: Addr, fp: Bytes)
    ensures SatsOf(StaleDelegations(a, fp), {fp}, a) == 10 && Stakes(StaleDelegations(a, fp), {fp}, a)
  {
    var dels := StaleDelegations(a, fp);
    assert dels[0].fpBtcPks[0] in {fp};
    assert Counts(dels[0], {fp}, a);
    assert dels[..0] == [];
  }

  lemma StaleSolvent(a: Addr, s: nat)
    ensures Solvent(StalePool(a, s))
  {
    var p := StalePool(a, s);
    hide Sum;
    SumOne(Scores(p.trackers), a);
    SumOne(Claims(p.historical, 0, p.trackers), a);
  }

  /** A stored score that is too low breaks the pool: it is solvent before the reset, the reset
      succeeds, and afterwards it is solvent exactly if the stored score was at least 10. */
  lemma LowScoreBreaksThePool(a: Addr, fp: Bytes, s: nat, r: Pool)
    requires s > 0 && ResetTo(StalePool(a, s), StaleDelegations(a, fp), {fp}, r)
    ensures Solvent(StalePool(a, s)) && ResetPayable(StalePool(a, s), StaleDelegations(a, fp), {fp})
    ensures Solvent(r) <==> 10 <= s
  {
    hide Sum, ResetTo, ResetPayable, Solvent, Rises, Reliefs, Claims, SatsOf, Stakes;
    var p, dels := StalePool(a, s), StaleDelegations(a, fp);
    StaleSolvent(a, s);
    SolventPayable(p, dels, {fp});
    ResetSolventIff(p, dels, {fp}, r);
    StaleSheet(a, fp, s);
  }

  /** The pool once its only period has ended: one unit of reward per score. */
  function StaleEnded(a: Addr, s: nat): (q: Pool) {
    StalePool(a, s).(historical := map[0 := 0, 1 := DecimalRewards], current := Some(CurrentRewards(0, 2, s)))
  }

  lemma StaleIncremented(a: Addr, s: nat)
    requires s > 0
    ensures Incremented(StalePool(a, s)) == Some(StaleEnded(a, s))
  {
    assert PerScore(s * DecimalRewards, s) == DecimalRewards;
    assert map[0 := 0][1 := DecimalRewards] == map[0 := 0, 1 := DecimalRewards];
  }

  lemma StaleClaims(a: Addr, fp: Bytes, s: nat)
    ensures var q := StaleEnded(a, s);
            && Claim(q.historical, 1, q.trackers[a]) == DecimalRewards * s
            && ClaimAfter(q, StaleDelegations(a, fp), {fp}, 1, a) == DecimalRewards * 10
  {
    StaleSats(a, fp);
    hide SatsOf, Stakes;
  }

  lemma StaleSheet(a: Addr, fp: Bytes, s: nat)
    requires s > 0
    ensures Affordable(StalePool(a, s), StaleDelegations(a, fp), {fp}) <==> 10 <= s
  {
    hide Sum, SatsOf, Stakes, Incremented, Claim, ClaimAfter;
    var q, dels := StaleEnded(a, s), StaleDelegations(a, fp);
    StaleIncremented(a, s);
    StaleSats(a, fp);
    StaleClaims(a, fp, s);
    SumOne(Claims(q.historical, 1, q.trackers), a);
    SumOne(Rises(q, dels, {fp}, 1), a);
    SumOne(Reliefs(q, dels, {fp}, 1), a);
  }

  /** Run on trackers just initialised from a new store, with the same delegations and ratio,
      the reset changes no tracker and keeps the total. */
  lemma ResetAfterInitialize(q: Pool, dels: seq<BtcDelegation>, fps: set<Bytes>, babies: seq<BabyDelegation>, r: Pool)
    requires forall a :: Find(q.trackers, a) == InitTracker(None, dels, fps, babies, a)
    requires q.ratio == DefaultRatio && Solvent(q) && q.current.Some? && ResetTo(q, dels, fps, r)
    ensures r.trackers == q.trackers && r.current.Some? && q.current.value.totalScore == r.current.value.totalScore
  {
    hide Sum, SatsOf, Stakes, BabyOf, Delegates, Incremented, Reward, Recorded, Backed, ResetTracker;
    forall a | a in q.trackers
      ensures r.trackers[a] == q.trackers[a]
    {
      assert Find(q.trackers, a) == InitTracker(None, dels, fps, babies, a);
      ResetUnchanged(q.trackers[a], dels, fps, a, q.current.value.period, DefaultRatio);
    }
  }
}
