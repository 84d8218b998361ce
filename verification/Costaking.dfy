/** Co-staking rewards: trackers, reward periods and pay-outs
    (x/costaking/keeper, x/costaking/types). Amounts are in one denomination. */
module Costaking {
  import opened Prelude
  import opened MapSum

  type Addr = Bytes
  type Ratio = n: nat | n >= 1 witness 1

  /** Rewards are kept with this many units per coin. */
  const DecimalRewards: nat := 100_000_000_000_000_000_000

  datatype Tracker = Tracker(startPeriod: nat, activeSatoshis: nat, activeBaby: nat, totalScore: nat)

  datatype CurrentRewards = CurrentRewards(rewards: nat, period: nat, totalScore: nat)

  /** The module's store, its account balance and what it has credited to reward gauges. */
  datatype Pool = Pool(
    trackers: map<Addr, Tracker>,
    current: Option<CurrentRewards>,
    historical: map<nat, nat>,   // period -> cumulative reward per unit of score
    balance: nat,
    gauges: map<Addr, nat>,
    ratio: Ratio)

  // ----- scores -----

  function Score(ratio: Ratio, baby: nat, sats: nat): (score: nat) {
    var byRatio := baby / ratio;
    if sats <= byRatio then sats else byRatio
  }

  /** The score is the greatest number of satoshis that are staked and covered by BABY. */
  lemma ScoreIsLargest(ratio: Ratio, baby: nat, sats: nat, n: nat)
    ensures n <= Score(ratio, baby, sats) <==> n <= sats && n * ratio <= baby
  {
    var q, r := baby / ratio, baby % ratio;
    assert baby == ratio * q + r;
    if n <= q {
      MulMono(n, q, ratio);
    } else {
      MulMono(q + 1, n, ratio);
    }
  }

  lemma MulMono(a: nat, b: nat, c: nat)
    requires a <= b
    ensures a * c <= b * c
  {
  }

  function Scores(trackers: map<Addr, Tracker>): (m: map<Addr, nat>) {
    map a | a in trackers :: trackers[a].totalScore
  }

  /** Every stored score is the one the stored amounts give. */
  ghost predicate ScoresCurrent(trackers: map<Addr, Tracker>, ratio: Ratio) {
    forall a :: a in trackers ==>
                  trackers[a].totalScore == Score(ratio, trackers[a].activeBaby, trackers[a].activeSatoshis)
  }

  // ----- steps on the pool -----

  function Initialized(p: Pool): (q: Pool) {
    if p.current.Some? then p
    else p.(historical := p.historical[0 := 0], current := Some(CurrentRewards(0, 1, 0)))
  }

  function PerScore(rewards: nat, totalScore: nat): (n: nat) {
    if totalScore == 0 then 0 else rewards / totalScore
  }

  /** Ends the current period: its rewards are shared out over the total score. */
  function Incremented(p: Pool): (r: Option<Pool>) {
    var q := Initialized(p);
    var cur := q.current.value;
    if cur.period - 1 !in q.historical then None
    else
      Some(q.(historical := q.historical[cur.period := q.historical[cur.period - 1] + PerScore(cur.rewards, cur.totalScore)],
              current := Some(CurrentRewards(0, cur.period + 1, cur.totalScore))))
  }

  /** What a costaker has earned up to the end of a period. */
  function Reward(p: Pool, a: Addr, ended: nat): (r: Option<nat>) {
    if a !in p.trackers || p.trackers[a].totalScore == 0 then Some(0)
    else
      var t := p.trackers[a];
      if t.startPeriod > ended || t.startPeriod !in p.historical || ended !in p.historical then None
      else if p.historical[ended] < p.historical[t.startPeriod] then None
      else Some(Times(p.historical[ended] - p.historical[t.startPeriod], t.totalScore) / DecimalRewards)
  }

  /** The reward moves from the module account to the costaker's gauge. */
  function Paid(p: Pool, a: Addr, ended: nat): (r: Option<Pool>) {
    match Reward(p, a, ended)
    case None => None
    case Some(reward) =>
      if reward == 0 then Some(p)
      else if p.balance < reward then None
      else Some(p.(balance := p.balance - reward, gauges := p.gauges[a := Get(p.gauges, a) + reward]))
  }

  function Added(p: Pool, coins: nat): (q: Pool) {
    if coins == 0 then p
    else
      var q := Initialized(p);
      q.(balance := q.balance + coins,
         current := Some(q.current.value.(rewards := q.current.value.rewards + coins * DecimalRewards)))
  }

  /** How a hook changes a costaker's staked amounts. */
  datatype Change = Replace(sats: int, baby: int) | Shift(sats: int, baby: int)

  function Sats(t: Tracker, c: Change): (n: int) {
    if c.Replace? then c.sats else t.activeSatoshis + c.sats
  }

  function Baby(t: Tracker, c: Change): (n: nat) {
    var baby := if c.Replace? then c.baby else t.activeBaby + c.baby;
    if baby < 0 then 0 else baby
  }

  /** The tracker a change starts from. */
  function TrackerOrNew(p: Pool, a: Addr): (t: Tracker) {
    if a in p.trackers then p.trackers[a] else Tracker(Initialized(p).current.value.period, 0, 0, 0)
  }

  /** Ends the period, pays the costaker, stores `t` as its tracker from the new period on and
      moves the total score by `delta`. */
  function Restarted(p: Pool, a: Addr, t: Tracker, delta: int): (r: Option<Pool>) {
    var ended := Initialized(p).current.value.period;
    match Incremented(p)
    case None => None
    case Some(q) =>
      match Paid(q, a, ended)
      case None => None
      case Some(q) =>
        var total := q.current.value.totalScore + delta;
        if total < 0 then None
        else Some(q.(trackers := q.trackers[a := t.(startPeriod := ended)],
                     current := Some(q.current.value.(totalScore := total))))
  }

  function Modified(p: Pool, a: Addr, c: Change): (r: Option<Pool>) {
    var t := TrackerOrNew(p, a);
    var q := if a in p.trackers then p else Initialized(p);
    if Sats(t, c) < 0 then None
    else
      var score := Score(p.ratio, Baby(t, c), Sats(t, c));
      var t' := Tracker(t.startPeriod, Sats(t, c), Baby(t, c), score);
      if score == t.totalScore then Some(q.(trackers := q.trackers[a := t']))
      else Restarted(q, a, t', score - t.totalScore)
  }

  function Withdrawn(p: Pool, a: Addr): (r: Option<Pool>) {
    if a !in p.trackers then None else Restarted(p, a, p.trackers[a], 0)
  }

  // ----- what every step keeps -----

  /** What a tracker is owed at the end of a period, in reward units. */
  function Claim(historical: map<nat, nat>, ended: nat, t: Tracker): (n: nat) {
    if t.startPeriod in historical && ended in historical && historical[t.startPeriod] <= historical[ended]
    then Times(historical[ended] - historical[t.startPeriod], t.totalScore)
    else 0
  }

  function Claims(historical: map<nat, nat>, ended: nat, trackers: map<Addr, Tracker>): (m: map<Addr, nat>) {
    map a | a in trackers :: Claim(historical, ended, trackers[a])
  }

  predicate InTime(t: Tracker, period: nat) {
    t.startPeriod <= period && (t.totalScore == 0 || t.startPeriod < period)
  }

  /** Every ended period has a record, records never fall, nobody starts after the current period
      and whoever has a score started in an ended one. */
  ghost predicate Recorded(p: Pool) {
    && p.current.Some?
    && p.current.value.period >= 1
    && (forall i: nat :: i < p.current.value.period ==> i in p.historical)
    && (forall i: nat, j: nat :: i <= j < p.current.value.period ==> p.historical[i] <= p.historical[j])
    && (forall a :: a in p.trackers ==> InTime(p.trackers[a], p.current.value.period))
  }

  /** The account holds at least the undistributed rewards and everything owed. */
  ghost predicate Backed(p: Pool) {
    && p.current.Some?
    && p.current.value.period >= 1
    && p.current.value.rewards + Sum(Claims(p.historical, p.current.value.period - 1, p.trackers))
       <= DecimalRewards * p.balance
  }

  ghost predicate Solvent(p: Pool) {
    if p.current.None? then p.trackers == map[]
    else Recorded(p) && Backed(p) && p.current.value.totalScore == Sum(Scores(p.trackers))
  }

  /** Coins held by the module and coins credited to gauges, together. */
  ghost function Coins(p: Pool): (n: nat) {
    p.balance + Sum(p.gauges)
  }

  lemma InitializedSolvent(p: Pool)
    requires Solvent(p)
    ensures Solvent(Initialized(p)) && Initialized(p).current.Some? && Coins(Initialized(p)) == Coins(p)
  {
    if p.current.None? {
      assert Scores(p.trackers) == map[];
      assert Claims(Initialized(p).historical, 0, p.trackers) == map[];
    }
  }

  lemma ClaimGrows(p: Pool, q: Pool, a: Addr, perScore: nat)
    requires Recorded(p) && Incremented(p) == Some(q) && a in p.trackers
    requires perScore == PerScore(p.current.value.rewards, p.current.value.totalScore)
    ensures var ended := p.current.value.period;
            Claim(q.historical, ended, p.trackers[a])
            == Claim(p.historical, ended - 1, p.trackers[a]) + Times(p.trackers[a].totalScore, perScore)
  {
    hide PerScore, Times;
    var t, ended := p.trackers[a], p.current.value.period;
    if t.totalScore == 0 {
      NoScoreNoClaim(p.historical, ended - 1, t);
      NoScoreNoClaim(q.historical, ended, t);
      assert Times(0, perScore) == 0 by { TimesZero(perScore); }
    } else {
      assert p.historical[t.startPeriod] <= p.historical[ended - 1];
      TimesAdd(p.historical[ended - 1] - p.historical[t.startPeriod], perScore, t.totalScore);
      TimesAdd(perScore, 0, t.totalScore);
    }
  }

  lemma NoScoreNoClaim(historical: map<nat, nat>, ended: nat, t: Tracker)
    requires t.totalScore == 0
    ensures Claim(historical, ended, t) == 0
  {
  }

  lemma ShareFits(rewards: nat, total: nat)
    ensures Times(total, PerScore(rewards, total)) <= rewards
    ensures rewards == 0 ==> PerScore(rewards, total) == 0
  {
  }

  function Gains(scores: map<Addr, nat>, perScore: nat): (m: map<Addr, nat>)
    ensures m.Keys == scores.Keys
  {
    map a | a in scores :: Times(scores[a], perScore)
  }

  lemma GainsSum(scores: map<Addr, nat>, perScore: nat)
    ensures Sum(Gains(scores, perScore)) == Times(Sum(scores), perScore)
  {
    SumTimes(scores, perScore, Gains(scores, perScore));
  }

  /** What is owed grows by the total score times the share of each unit. */
  lemma OwedGrows(p: Pool, q: Pool, perScore: nat)
    requires Recorded(p) && Incremented(p) == Some(q)
    requires perScore == PerScore(p.current.value.rewards, p.current.value.totalScore)
    ensures Sum(Claims(q.historical, p.current.value.period, p.trackers))
            == Sum(Claims(p.historical, p.current.value.period - 1, p.trackers)) + Times(Sum(Scores(p.trackers)), perScore)
  {
    hide PerScore, Times, Sum, Claim, Incremented;
    var ended, scores := p.current.value.period, Scores(p.trackers);
    var claims, claims' := Claims(p.historical, ended - 1, p.trackers), Claims(q.historical, ended, p.trackers);
    var gains := Gains(scores, perScore);
    forall a | a in p.trackers
      ensures claims'[a] == claims[a] + gains[a]
    {
      ClaimGrows(p, q, a, perScore);
    }
    SumAdd(claims, gains, claims');
    GainsSum(scores, perScore);
  }

  /** Ending a period never fails and never promises more than it shares out. */
  lemma IncrementKeeps(p: Pool)
    requires Recorded(p) && Backed(p)
    requires p.current.value.totalScore == Sum(Scores(p.trackers)) || p.current.value.rewards == 0
    ensures Incremented(p).Some?
    ensures var q := Incremented(p).value;
            && Recorded(q) && Backed(q)
            && q.current == Some(CurrentRewards(0, p.current.value.period + 1, p.current.value.totalScore))
            && q == p.(historical := q.historical, current := q.current)
  {
    hide PerScore, Claims, Sum, Times;
    var q := Incremented(p).value;
    var perScore := PerScore(p.current.value.rewards, p.current.value.totalScore);
    OwedGrows(p, q, perScore);
    ShareFits(p.current.value.rewards, p.current.value.totalScore);
    TimesZero(Sum(Scores(p.trackers)));
  }

  lemma SetTracker(historical: map<nat, nat>, ended: nat, trackers: map<Addr, Tracker>, a: Addr, t: Tracker)
    ensures var old0 := if a in trackers then trackers[a].totalScore else 0;
            Sum(Scores(trackers[a := t])) == Sum(Scores(trackers)) - old0 + t.totalScore
    ensures var old0 := if a in trackers then Claim(historical, ended, trackers[a]) else 0;
            Sum(Claims(historical, ended, trackers[a := t]))
            == Sum(Claims(historical, ended, trackers)) - old0 + Claim(historical, ended, t)
  {
    hide Claim;
    var scores, claims := Scores(trackers), Claims(historical, ended, trackers);
    SumUpdate(scores, a, t.totalScore);
    SumUpdate(claims, a, Claim(historical, ended, t));
    assert Scores(trackers[a := t]) == scores[a := t.totalScore];
    assert Claims(historical, ended, trackers[a := t]) == claims[a := Claim(historical, ended, t)];
  }

  /** A pay-out followed by a restart of the tracker never fails for lack of funds, moves
      coins without making or losing any, and keeps everything backed. */
  lemma SettleKeeps(p: Pool, a: Addr, t: Tracker)
    requires Recorded(p) && Backed(p) && t.startPeriod == p.current.value.period - 1
    ensures Paid(p, a, p.current.value.period - 1).Some?
    ensures var q := Paid(p, a, p.current.value.period - 1).value;
            var q' := q.(trackers := q.trackers[a := t]);
            && Recorded(q') && Backed(q')
            && q.balance + Sum(q.gauges) == p.balance + Sum(p.gauges)
            && q == p.(balance := q.balance, gauges := q.gauges)
            && Get(q.gauges, a) == Get(p.gauges, a) + p.balance - q.balance
            && forall b :: b != a ==> Get(q.gauges, b) == Get(p.gauges, b)
  {
    hide Claims, Sum, Times, Scores;
    var ended := p.current.value.period - 1;
    SetTracker(p.historical, ended, p.trackers, a, t);
    FreshClaim(p.historical, ended, t);
    hide Claim;
    if a in p.trackers && p.trackers[a].totalScore != 0 {
      RewardIsClaim(p, a);
      ClaimPart(p, ended, a);
      SumUpdate(p.gauges, a, Get(p.gauges, a) + Reward(p, a, ended).value);
    }
  }

  lemma RewardIsClaim(p: Pool, a: Addr)
    requires Recorded(p) && a in p.trackers && p.trackers[a].totalScore != 0
    ensures var ended := p.current.value.period - 1;
            Reward(p, a, ended) == Some(Claim(p.historical, ended, p.trackers[a]) / DecimalRewards)
  {
    assert p.historical[p.trackers[a].startPeriod] <= p.historical[p.current.value.period - 1];
  }

  lemma FreshClaim(historical: map<nat, nat>, ended: nat, t: Tracker)
    requires t.startPeriod == ended
    ensures Claim(historical, ended, t) == 0
  {
  }

  lemma ClaimPart(p: Pool, ended: nat, a: Addr)
    requires a in p.trackers
    ensures Claim(p.historical, ended, p.trackers[a]) <= Sum(Claims(p.historical, ended, p.trackers))
  {
    SumPart(Claims(p.historical, ended, p.trackers), a);
  }

  /** Replacing a tracker by one with the same score and start keeps everything backed. */
  lemma SameClaimKeeps(p: Pool, a: Addr, t: Tracker)
    requires Recorded(p) && Backed(p)
    requires if a in p.trackers then t.totalScore == p.trackers[a].totalScore && t.startPeriod == p.trackers[a].startPeriod
             else t.totalScore == 0 && t.startPeriod <= p.current.value.period
    ensures var q := p.(trackers := p.trackers[a := t]);
            && Recorded(q) && Backed(q)
            && Sum(Scores(q.trackers)) == Sum(Scores(p.trackers))
  {
    hide Claims, Sum, Times, Scores;
    SetTracker(p.historical, p.current.value.period - 1, p.trackers, a, t);
    NoScoreNoClaim(p.historical, p.current.value.period - 1, t.(totalScore := 0));
  }

  // ----- every operation -----

  lemma AddedKeeps(p: Pool, coins: nat)
    requires Solvent(p)
    ensures Solvent(Added(p, coins)) && Coins(Added(p, coins)) == Coins(p) + coins
    ensures Added(p, coins).trackers == p.trackers
  {
    hide Claims, Sum, Scores, Recorded;
    InitializedSolvent(p);
    if coins > 0 {
      RewardsIrrelevant(Initialized(p), Added(p, coins));
    }
  }

  lemma RewardsIrrelevant(p: Pool, q: Pool)
    requires Recorded(p) && q.current.Some? && q.current.value.period == p.current.value.period
    requires q.historical == p.historical && q.trackers == p.trackers
    ensures Recorded(q)
  {
  }

  lemma RestartedKeeps(p: Pool, a: Addr, t: Tracker)
    requires Solvent(p) && p.current.Some?
    ensures var delta := t.totalScore - if a in p.trackers then p.trackers[a].totalScore else 0;
            var ended := p.current.value.period;
            && Restarted(p, a, t, delta).Some?
            && var q := Restarted(p, a, t, delta).value;
            && Solvent(q) && q.current.Some? && Coins(q) == Coins(p) && q.ratio == p.ratio
            && q.trackers == p.trackers[a := t.(startPeriod := ended)]
  {
    hide Recorded, Backed, Sum, Scores, Incremented, Claims, Claim, Paid;
    IncrementKeeps(p);
    var ended := p.current.value.period;
    var q := Incremented(p).value;
    var t' := t.(startPeriod := ended);
    SettleKeeps(q, a, t');
    SetTracker(q.historical, ended, q.trackers, a, t');
    var q' := Paid(q, a, ended).value;
    TotalIrrelevant(q'.(trackers := q'.trackers[a := t']), Sum(Scores(q'.trackers[a := t'])));
  }

  lemma TotalIrrelevant(p: Pool, total: nat)
    requires Recorded(p) && Backed(p)
    ensures var q := p.(current := Some(p.current.value.(totalScore := total)));
            Recorded(q) && Backed(q)
  {
    hide Sum, Claims;
  }

  /** A change is refused exactly when it would leave a negative number of satoshis. Otherwise
      the new amounts and their score are stored and nothing else about stakes changes. */
  lemma ModifiedKeeps(p: Pool, a: Addr, c: Change)
    requires Solvent(p)
    ensures Modified(p, a, c).None? <==> Sats(TrackerOrNew(p, a), c) < 0
    ensures Modified(p, a, c).Some? ==>
              var q, t := Modified(p, a, c).value, TrackerOrNew(p, a);
              && Solvent(q) && Coins(q) == Coins(p) && q.ratio == p.ratio
              && a in q.trackers && q.trackers == p.trackers[a := q.trackers[a]]
              && q.trackers[a].activeSatoshis == Sats(t, c) && q.trackers[a].activeBaby == Baby(t, c)
              && q.trackers[a].totalScore == Score(p.ratio, Baby(t, c), Sats(t, c))
              && q.trackers[a].startPeriod == (if q.trackers[a].totalScore == t.totalScore && a in p.trackers
                                               then p.trackers[a].startPeriod
                                               else Initialized(p).current.value.period)
  {
    hide Claims, Sum, Scores, Score, Backed, Recorded, Coins, Restarted;
    InitializedSolvent(p);
    var t := TrackerOrNew(p, a);
    var q := if a in p.trackers then p else Initialized(p);
    if Sats(t, c) >= 0 {
      var score := Score(p.ratio, Baby(t, c), Sats(t, c));
      var t' := Tracker(t.startPeriod, Sats(t, c), Baby(t, c), score);
      if score == t.totalScore {
        SameClaimKeeps(q, a, t');
        assert Coins(q.(trackers := q.trackers[a := t'])) == Coins(q) by { SameCoins(q, q.trackers[a := t']); }
      } else {
        RestartedKeeps(q, a, t');
      }
    }
  }

  lemma SameCoins(p: Pool, trackers: map<Addr, Tracker>)
    ensures Coins(p.(trackers := trackers)) == Coins(p)
  {
  }

  /** A withdrawal fails exactly for somebody without a tracker, and never for lack of funds. */
  lemma WithdrawnKeeps(p: Pool, a: Addr)
    requires Solvent(p)
    ensures Withdrawn(p, a).None? <==> a !in p.trackers
    ensures Withdrawn(p, a).Some? ==>
              var q := Withdrawn(p, a).value;
              && Solvent(q) && Coins(q) == Coins(p) && q.ratio == p.ratio
              && q.trackers.Keys == p.trackers.Keys
              && q.trackers == p.trackers[a := p.trackers[a].(startPeriod := q.trackers[a].startPeriod)]
  {
    hide Claims, Sum, Scores, Backed, Recorded, Coins, Restarted;
    if a in p.trackers {
      RestartedKeeps(p, a, p.trackers[a]);
    }
  }

  // ----- a new ratio -----

  /** The tracker with its score under a new ratio, restarted if the score changes. */
  function Rescored(t: Tracker, ratio: Ratio, ended: nat): (t': Tracker) {
    var score := Score(ratio, t.activeBaby, t.activeSatoshis);
    if score == t.totalScore then t else t.(totalScore := score, startPeriod := ended)
  }

  function RescoredOne(p: Pool, a: Addr, ratio: Ratio, ended: nat): (r: Option<Pool>)
    requires a in p.trackers
    ensures r.Some? ==> r.value.trackers.Keys == p.trackers.Keys
  {
    var t := Rescored(p.trackers[a], ratio, ended);
    if t == p.trackers[a] then Some(p)
    else
      match Paid(p, a, ended)
      case None => None
      case Some(q) => Some(q.(trackers := q.trackers[a := t]))
  }

  /** Trackers are rescored in the order in which the store walks them. */
  function RescoredAll(p: Pool, order: seq<Addr>, ratio: Ratio, ended: nat): (r: Option<Pool>)
    requires forall a :: a in order ==> a in p.trackers
    ensures r.Some? ==> r.value.trackers.Keys == p.trackers.Keys
  {
    if order == [] then Some(p)
    else
      var last := |order| - 1;
      match RescoredAll(p, order[..last], ratio, ended)
      case None => None
      case Some(q) => RescoredOne(q, order[last], ratio, ended)
  }

  /** `order` walks over every tracker once. */
  ghost predicate Walk(order: seq<Addr>, keys: set<Addr>) {
    && (forall a :: a in order <==> a in keys)
    && (forall i, j :: 0 <= i < j < |order| ==> order[i] != order[j])
  }

  function SumOver(order: seq<Addr>, m: map<Addr, nat>): (n: nat)
    requires forall a :: a in order ==> a in m
  {
    if order == [] then 0
    else SumOver(order[..|order| - 1], m) + m[order[|order| - 1]]
  }

  lemma {:induction false} SumOverIsSum(order: seq<Addr>, m: map<Addr, nat>)
    requires Walk(order, m.Keys)
    ensures SumOver(order, m) == Sum(m)
  {
    if order == [] {
      assert m == map[];
    } else {
      var last := |order| - 1;
      var front, a := order[..last], order[last];
      assert order == front + [a];
      SumRemove(m, a);
      assert Walk(front, (m - {a}).Keys);
      SumOverIsSum(front, m - {a});
      SumOverSame(front, m, m - {a});
    }
  }

  lemma {:induction false} SumOverSame(order: seq<Addr>, m: map<Addr, nat>, n: map<Addr, nat>)
    requires forall a :: a in order ==> a in m && a in n && m[a] == n[a]
    ensures SumOver(order, m) == SumOver(order, n)
  {
    if order != [] {
      assert order[|order| - 1] in order;
      SumOverSame(order[..|order| - 1], m, n);
    }
  }

  /** What rescoring pays to a costaker. */
  function Payment(p: Pool, a: Addr, ratio: Ratio, ended: nat): (n: nat)
    requires a in p.trackers
  {
    if Rescored(p.trackers[a], ratio, ended) != p.trackers[a] && Reward(p, a, ended).Some?
    then Reward(p, a, ended).value
    else 0
  }

  /** `q` is `p` with one tracker rescored and its owner paid. */
  ghost predicate RescoreEffect(p: Pool, a: Addr, ratio: Ratio, ended: nat, q: Pool)
    requires a in p.trackers
  {
    && q == p.(trackers := p.trackers[a := Rescored(p.trackers[a], ratio, ended)],
               balance := q.balance, gauges := q.gauges)
    && Get(q.gauges, a) == Get(p.gauges, a) + Payment(p, a, ratio, ended)
    && forall b :: b != a ==> Get(q.gauges, b) == Get(p.gauges, b)
  }

  lemma RescoredOneKeeps(p: Pool, a: Addr, ratio: Ratio)
    requires Recorded(p) && Backed(p) && a in p.trackers
    ensures p.current.Some? && p.current.value.period >= 1
    ensures RescoredOne(p, a, ratio, p.current.value.period - 1).Some?
    ensures var q := RescoredOne(p, a, ratio, p.current.value.period - 1).value;
            && Recorded(q) && Backed(q) && Coins(q) == Coins(p)
            && RescoreEffect(p, a, ratio, p.current.value.period - 1, q)
  {
    hide Recorded, Backed, Sum, Score, Times;
    PeriodPositive(p);
    var ended := p.current.value.period - 1;
    var t := Rescored(p.trackers[a], ratio, ended);
    if t == p.trackers[a] {
      assert p.trackers[a := t] == p.trackers;
    } else {
      SettleKeeps(p, a, t);
    }
  }

  /** Rescoring never fails for lack of funds. It changes the trackers on the way and no others,
      and pays those whose score changes what they have earned. */
  lemma {:induction false} RescoredAllKeeps(p: Pool, order: seq<Addr>, ratio: Ratio)
    requires Recorded(p) && Backed(p)
    requires forall a :: a in order ==> a in p.trackers
    requires forall i, j :: 0 <= i < j < |order| ==> order[i] != order[j]
    ensures p.current.Some? && p.current.value.period >= 1
    ensures var ended := p.current.value.period - 1;
            && RescoredAll(p, order, ratio, ended).Some?
            && var q := RescoredAll(p, order, ratio, ended).value;
            && Recorded(q) && Backed(q) && Coins(q) == Coins(p)
            && q.current == p.current && q.ratio == p.ratio && q.historical == p.historical
            && (forall a :: a in p.trackers ==>
                 q.trackers[a] == if a in order then Rescored(p.trackers[a], ratio, ended) else p.trackers[a])
            && (forall a :: a in p.trackers ==>
                 Get(q.gauges, a) == Get(p.gauges, a) + if a in order then Payment(p, a, ratio, ended) else 0)
            && (forall a :: a !in p.trackers ==> Get(q.gauges, a) == Get(p.gauges, a))
  {
    hide Recorded, Backed, Coins, RescoredOne, Rescored, Payment;
    PeriodPositive(p);
    var ended := p.current.value.period - 1;
    if order != [] {
      var last := |order| - 1;
      var front, a := order[..last], order[last];
      assert order == front + [a];
      RescoredAllKeeps(p, front, ratio);
      var q := RescoredAll(p, front, ratio, ended).value;
      assert a !in front;
      RescoredOneKeeps(q, a, ratio);
      PaymentSame(p, q, a, ratio, ended);
    }
  }

  lemma PaymentSame(p: Pool, q: Pool, a: Addr, ratio: Ratio, ended: nat)
    requires a in p.trackers && a in q.trackers && q.trackers[a] == p.trackers[a] && q.historical == p.historical
    ensures Payment(q, a, ratio, ended) == Payment(p, a, ratio, ended)
  {
    hide Times, Score;
  }

  lemma PeriodPositive(p: Pool)
    requires Recorded(p)
    ensures p.current.Some? && p.current.value.period >= 1
  {
  }

  /** Ends the period, rescores everybody, ends the (empty) new period and stores the new total. */
  function WithRatio(p: Pool, ratio: Ratio, order: seq<Addr>): (r: Option<Pool>)
    requires forall a :: a in order ==> a in p.trackers
  {
    if ratio == p.ratio then Some(p)
    else
      var ended := Initialized(p).current.value.period;
      match Incremented(p)
      case None => None
      case Some(q) =>
        match RescoredAll(q, order, ratio, ended)
        case None => None
        case Some(q) =>
          match Incremented(q)
          case None => None
          case Some(q') =>
            var total := SumOver(order, Scores(q.trackers));
            Some(q'.(current := Some(q'.current.value.(totalScore := total)), ratio := ratio))
  }

  lemma WithRatioKeeps(p: Pool, ratio: Ratio, order: seq<Addr>)
    requires Solvent(p) && Walk(order, p.trackers.Keys) && ScoresCurrent(p.trackers, p.ratio)
    ensures WithRatio(p, ratio, order).Some?
    ensures var q := WithRatio(p, ratio, order).value;
            && Solvent(q) && Coins(q) == Coins(p) && q.ratio == ratio
            && q.trackers.Keys == p.trackers.Keys && ScoresCurrent(q.trackers, ratio)
            && forall a :: a in p.trackers ==>
                 && q.trackers[a].activeSatoshis == p.trackers[a].activeSatoshis
                 && q.trackers[a].activeBaby == p.trackers[a].activeBaby
                 && (q.trackers[a].totalScore == p.trackers[a].totalScore ==> q.trackers[a] == p.trackers[a])
  {
    hide Recorded, Backed, Sum, Incremented, Claims, RescoredAll, Score;
    if ratio != p.ratio {
      InitializedSolvent(p);
      var p0 := Initialized(p);
      assert Incremented(p) == Incremented(p0) by { IncrementedInitializes(p); }
      IncrementKeeps(p0);
      var q := Incremented(p0).value;
      RescoredAllKeeps(q, order, ratio);
      var ended := p0.current.value.period;
      var q1 := RescoredAll(q, order, ratio, ended).value;
      IncrementKeeps(q1);
      var q2 := Incremented(q1).value;
      SumOverIsSum(order, Scores(q1.trackers));
      TotalIrrelevant(q2, Sum(Scores(q1.trackers)));
      RatioIrrelevant(q2.(current := Some(q2.current.value.(totalScore := Sum(Scores(q1.trackers))))), ratio);
    }
  }

  lemma IncrementedInitializes(p: Pool)
    ensures Incremented(p) == Incremented(Initialized(p))
  {
  }

  lemma RatioIrrelevant(p: Pool, ratio: Ratio)
    requires Recorded(p) && Backed(p)
    ensures Recorded(p.(ratio := ratio)) && Backed(p.(ratio := ratio))
  {
    hide Sum, Claims;
  }
}
