/** The co-staking keeper, step by step (x/costaking/keeper/reward_tracker.go,
    rewards_store.go, score.go). */
module CostakingKeeper {
  import opened Prelude
  import opened MapSum
  import opened Costaking

  class Keeper {
    var trackers: map<Addr, Tracker>
    var current: Option<CurrentRewards>
    var historical: map<nat, nat>
    var balance: nat
    var gauges: map<Addr, nat>
    var ratio: Ratio

    ghost function View(): (p: Pool)
      reads this
    {
      Pool(trackers, current, historical, balance, gauges, ratio)
    }

    constructor (ratio: Ratio, balance: nat)
      ensures View() == Pool(map[], None, map[], balance, map[], ratio)
    {
      this.trackers, this.current, this.historical := map[], None, map[];
      this.balance, this.gauges, this.ratio := balance, map[], ratio;
    }

    method GetCurrentRewardsInitialized() returns (cur: CurrentRewards)
      modifies this
      ensures View() == Initialized(old(View())) && current == Some(cur)
    {
      if current.None? {
        historical := historical[0 := 0];
        current := Some(CurrentRewards(0, 1, 0));
      }
      cur := current.value;
    }

    /** Fails if the period before the current one has no record. */
    method IncrementRewardsPeriod() returns (ended: Option<nat>)
      modifies this
      ensures ended.Some? <==> Incremented(old(View())).Some?
      ensures ended.Some? ==> Incremented(old(View())) == Some(View())
      ensures ended.Some? ==> ended == Some(Initialized(old(View())).current.value.period)
      ensures ended.None? ==> View() == Initialized(old(View()))
    {
      var cur := GetCurrentRewardsInitialized();
      var perScore := 0;
      if cur.totalScore != 0 {
        perScore := cur.rewards / cur.totalScore;
      }
      if cur.period - 1 !in historical {
        return None;
      }
      historical := historical[cur.period := historical[cur.period - 1] + perScore];
      current := Some(CurrentRewards(0, cur.period + 1, cur.totalScore));
      ended := Some(cur.period);
    }

    method CalculateCostakerRewards(costaker: Addr, endPeriod: nat) returns (r: Option<nat>)
      ensures r == Reward(View(), costaker, endPeriod)
    {
      if costaker !in trackers {
        return Some(0);
      }
      var t := trackers[costaker];
      if t.totalScore == 0 {
        return Some(0);
      }
      if t.startPeriod > endPeriod {
        return None;
      }
      if t.startPeriod !in historical || endPeriod !in historical {
        return None;
      }
      var starting, ending := historical[t.startPeriod], historical[endPeriod];
      if ending < starting {
        return None;
      }
      r := Some(Times(ending - starting, t.totalScore) / DecimalRewards);
    }

    method CalculateCostakerRewardsAndSendToGauge(costaker: Addr, endPeriod: nat) returns (ok: bool)
      modifies this`balance, this`gauges
      ensures ok <==> Paid(old(View()), costaker, endPeriod).Some?
      ensures ok ==> Paid(old(View()), costaker, endPeriod) == Some(View())
    {
      hide Times;
      var rewards := CalculateCostakerRewards(costaker, endPeriod);
      if rewards.None? {
        return false;
      }
      if rewards.value == 0 {
        return true;
      }
      gauges := gauges[costaker := Get(gauges, costaker) + rewards.value];
      if balance < rewards.value {
        return false;
      }
      balance := balance - rewards.value;
      ok := true;
    }

    /** Moves coins from the fee collector into the module and into the current rewards. */
    method AccumulateCostakingRewards(coins: nat)
      modifies this
      ensures View() == Added(old(View()), coins)
    {
      if coins == 0 {
        return;
      }
      balance := balance + coins;
      var cur := GetCurrentRewardsInitialized();
      current := Some(cur.(rewards := cur.rewards + coins * DecimalRewards));
    }

    /** Ends the period, pays the costaker, and starts its tracker in the new period. A new
        tracker, if given, is stored after the pay-out and moves the total score. */
    method CostakerModifiedScore(costaker: Addr, newTracker: Option<Tracker>, delta: int) returns (ok: bool)
      requires newTracker.Some? || delta == 0
      modifies this
      ensures ok <==> (newTracker.Some? || costaker in old(trackers))
                      && Restarted(old(View()), costaker,
                                   if newTracker.Some? then newTracker.value else old(trackers)[costaker], delta).Some?
      ensures ok ==> Restarted(old(View()), costaker,
                               if newTracker.Some? then newTracker.value else old(trackers)[costaker], delta) == Some(View())
    {
      hide Incremented;
      var ended := IncrementRewardsPeriod();
      if ended.None? {
        return false;
      }
      IncrementedFrame(old(View()), View());
      ok := CalculateCostakerRewardsAndSendToGauge(costaker, ended.value);
      if !ok {
        return;
      }
      if newTracker.Some? {
        trackers := trackers[costaker := newTracker.value];
        if current.value.totalScore + delta < 0 {
          return false;
        }
        current := Some(current.value.(totalScore := current.value.totalScore + delta));
      }
      if costaker !in trackers {
        return false;
      }
      trackers := trackers[costaker := trackers[costaker].(startPeriod := current.value.period - 1)];
      assert trackers == old(trackers)[costaker := trackers[costaker]];
    }

    method CostakerModified(costaker: Addr, change: Change) returns (ok: bool)
      modifies this
      ensures ok <==> Modified(old(View()), costaker, change).Some?
      ensures ok ==> Modified(old(View()), costaker, change) == Some(View())
    {
      hide Restarted, Score;
      var t;
      if costaker in trackers {
        t := trackers[costaker];
      } else {
        var cur := GetCurrentRewardsInitialized();
        t := Tracker(cur.period, 0, 0, 0);
      }
      var sats, baby := Sats(t, change), Baby(t, change);
      if sats < 0 {
        return false;
      }
      var score := Score(ratio, baby, sats);
      var t' := Tracker(t.startPeriod, sats, baby, score);
      if score - t.totalScore == 0 {
        trackers := trackers[costaker := t'];
        return true;
      }
      ok := CostakerModifiedScore(costaker, Some(t'), score - t.totalScore);
    }

    method CostakerWithdrawRewards(costaker: Addr) returns (ok: bool)
      modifies this
      ensures ok <==> Withdrawn(old(View()), costaker).Some?
      ensures ok ==> Withdrawn(old(View()), costaker) == Some(View())
    {
      hide Restarted;
      ok := CostakerModifiedScore(costaker, None, 0);
    }

    method UpdateCurrentRewardsTotalScore(totalScore: nat) returns (ok: bool)
      modifies this
      ensures ok <==> Incremented(old(View())).Some?
      ensures ok ==> var q := Incremented(old(View())).value;
                     View() == q.(current := Some(q.current.value.(totalScore := totalScore)))
    {
      var ended := IncrementRewardsPeriod();
      if ended.None? {
        return false;
      }
      current := Some(current.value.(totalScore := totalScore));
      ok := true;
    }

    /** Rescores one tracker, paying its owner first if the score changes. */
    method RescoreCostaker(a: Addr, newRatio: Ratio, ended: nat) returns (ok: bool, score: nat)
      requires a in trackers && current.Some? && current.value.period == ended + 1
      modifies this`trackers, this`balance, this`gauges
      ensures ok <==> RescoredOne(old(View()), a, newRatio, ended).Some?
      ensures ok ==> RescoredOne(old(View()), a, newRatio, ended) == Some(View())
      ensures ok ==> a in trackers && trackers == old(trackers)[a := trackers[a]] && trackers[a].totalScore == score
    {
      hide Score, Paid;
      var t := trackers[a];
      score := Score(newRatio, t.activeBaby, t.activeSatoshis);
      if score == t.totalScore {
        trackers := trackers[a := t];
        assert trackers == old(trackers);
        return true, score;
      }
      ok := CalculateCostakerRewardsAndSendToGauge(a, ended);
      if !ok {
        return;
      }
      trackers := trackers[a := t.(totalScore := score)];
      trackers := trackers[a := trackers[a].(startPeriod := current.value.period - 1)];
      assert trackers == old(trackers)[a := trackers[a]];
    }

    /** Rescores the trackers in turn and adds the scores up. */
    method RescoreCostakers(newRatio: Ratio, order: seq<Addr>, ended: nat) returns (ok: bool, totalScore: nat)
      requires forall a :: a in order ==> a in trackers
      requires forall i, j :: 0 <= i < j < |order| ==> order[i] != order[j]
      requires current.Some? && current.value.period == ended + 1
      modifies this`trackers, this`balance, this`gauges
      ensures ok <==> RescoredAll(old(View()), order, newRatio, ended).Some?
      ensures ok ==> RescoredAll(old(View()), order, newRatio, ended) == Some(View())
      ensures ok ==> trackers.Keys == old(trackers).Keys && totalScore == SumOver(order, Scores(trackers))
    {
      hide RescoredOne;
      totalScore := 0;
      for i := 0 to |order|
        invariant trackers.Keys == old(trackers).Keys
        invariant RescoredAll(old(View()), order[..i], newRatio, ended) == Some(View())
        invariant totalScore == SumOver(order[..i], Scores(trackers))
      {
        assert order[..i + 1][..i] == order[..i];
        ghost var before := trackers;
        var score;
        ok, score := RescoreCostaker(order[i], newRatio, ended);
        if !ok {
          StopsHere(old(View()), order, i, newRatio, ended);
          return;
        }
        totalScore := totalScore + score;
        SumOverSame(order[..i], Scores(before), Scores(trackers));
      }
      assert order[..|order|] == order;
      ok := true;
    }

    /** `order` is the order in which the store walks the trackers. */
    method UpdateAllCostakersScore(newRatio: Ratio, order: seq<Addr>) returns (ok: bool)
      requires Walk(order, trackers.Keys) && newRatio != ratio
      modifies this
      ensures ok <==> WithRatio(old(View()), newRatio, order).Some?
      ensures ok ==> WithRatio(old(View()), newRatio, order) == Some(View().(ratio := newRatio))
    {
      hide Incremented, RescoredAll, Walk, SumOver;
      WalkFacts(order, trackers.Keys);
      var ended := IncrementRewardsPeriod();
      if ended.None? {
        return false;
      }
      IncrementedFrame(old(View()), View());
      var totalScore;
      ok, totalScore := RescoreCostakers(newRatio, order, ended.value);
      if !ok {
        return;
      }
      ok := UpdateCurrentRewardsTotalScore(totalScore);
    }

    method UpdateParams(newRatio: Ratio, order: seq<Addr>) returns (ok: bool)
      requires Walk(order, trackers.Keys)
      modifies this
      ensures ok <==> WithRatio(old(View()), newRatio, order).Some?
      ensures ok ==> WithRatio(old(View()), newRatio, order) == Some(View())
    {
      ok := true;
      if newRatio != ratio {
        hide WithRatio;
        ok := UpdateAllCostakersScore(newRatio, order);
        if !ok {
          return;
        }
      }
      ratio := newRatio;
    }
  }

  lemma WalkFacts(order: seq<Addr>, keys: set<Addr>)
    requires Walk(order, keys)
    ensures forall a :: a in order <==> a in keys
    ensures forall i, j :: 0 <= i < j < |order| ==> order[i] != order[j]
  {
  }

  lemma IncrementedFrame(p: Pool, q: Pool)
    requires Incremented(p) == Some(q)
    ensures q.trackers == p.trackers && q.ratio == p.ratio && q.balance == p.balance && q.gauges == p.gauges
    ensures q.current.Some? && q.current.value.period == Initialized(p).current.value.period + 1
  {
  }

  /** A failure on the way is a failure of the whole walk. */
  lemma {:induction false} StopsHere(p: Pool, order: seq<Addr>, i: nat, ratio: Ratio, ended: nat)
    requires i < |order| && forall a :: a in order ==> a in p.trackers
    requires RescoredAll(p, order[..i + 1], ratio, ended).None?
    ensures RescoredAll(p, order, ratio, ended).None?
    decreases |order|
  {
    hide RescoredOne;
    var last := |order| - 1;
    if i < last {
      assert order[..last][..i + 1] == order[..i + 1];
      StopsHere(p, order[..last], i, ratio, ended);
    } else {
      assert order[..i + 1] == order;
    }
  }
}
