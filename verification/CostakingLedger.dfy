/** The co-staking module against a ledger that keeps its own stakes and its own pot, and credits
    everybody at the end of every period. */
module CostakingLedger {
  import opened Prelude
  import opened MapSum
  import opened Costaking
  import opened CostakingInit
  import opened CostakingReset
  import opened CostakingRuns

  // ----- the ledger -----

  datatype Stake = Stake(sats: nat, baby: nat)

  /** Who stakes what; the rewards of the current period and what everybody is due, in reward units;
      what has been paid to them, in coins; and the units that division has left over. */
  datatype Ledger = Ledger(
    stakes: map<Addr, Stake>,
    ratio: Ratio,
    pot: nat,
    due: map<Addr, nat>,
    paid: map<Addr, nat>,
    rest: nat)

  function StakeOf(l: Ledger, a: Addr): (s: Stake) {
    if a in l.stakes then l.stakes[a] else Stake(0, 0)
  }

  function ScoresOf(l: Ledger): (m: map<Addr, nat>) {
    map a | a in l.stakes :: Score(l.ratio, l.stakes[a].baby, l.stakes[a].sats)
  }

  /** What cannot be shared out evenly; without any score, everything. */
  function Leftover(pot: nat, total: nat): (n: nat) {
    if total == 0 then pot else pot % total
  }

  /** At the end of a period everybody is credited with the share of their score in the pot. */
  ghost function EndPeriod(l: Ledger): (l': Ledger) {
    var total := Sum(ScoresOf(l));
    l.(pot := 0,
       due := map a | a in l.stakes :: Get(l.due, a) + Times(ScoresOf(l)[a], PerScore(l.pot, total)),
       rest := l.rest + Leftover(l.pot, total))
  }

  /** Pays the whole coins that those in `whom` are due. */
  ghost function PayOff(l: Ledger, whom: set<Addr>): (l': Ledger) {
    l.(due := map a | a in l.due.Keys + whom :: if a in whom then 0 else l.due[a],
       paid := map a | a in l.paid.Keys + whom ::
         Get(l.paid, a) + if a in whom then Get(l.due, a) / DecimalRewards else 0,
       rest := l.rest + Sum(map a | a in whom :: Get(l.due, a) % DecimalRewards))
  }

  function ChangedSats(s: Stake, c: Change): (n: int) {
    match c
    case Replace(sats, _) => sats
    case Shift(sats, _) => s.sats + sats
  }

  function ChangedBaby(s: Stake, c: Change): (n: nat) {
    var baby := match c case Replace(_, baby) => baby case Shift(_, baby) => s.baby + baby;
    if baby < 0 then 0 else baby
  }

  ghost function WithStake(l: Ledger, a: Addr, s: Stake): (l': Ledger) {
    var scored := Score(l.ratio, s.baby, s.sats) != Score(l.ratio, StakeOf(l, a).baby, StakeOf(l, a).sats);
    var l' := if scored then PayOff(EndPeriod(l), {a}) else l.(due := l.due[a := Get(l.due, a)]);
    l'.(stakes := l.stakes[a := s])
  }

  /** Whose score a new ratio changes. */
  function Rescores(l: Ledger, ratio: Ratio): (whom: set<Addr>) {
    set a | a in l.stakes && ScoresOf(l.(ratio := ratio))[a] != ScoresOf(l)[a]
  }

  /** Whose satoshis are not those of the active delegations. */
  function Restakes(l: Ledger, dels: seq<BtcDelegation>, fps: set<Bytes>): (whom: set<Addr>) {
    set a | a in l.stakes && SatsOf(dels, fps, a) != l.stakes[a].sats
  }

  /** Added coins go to the pot. A change of score, a withdrawal, a new ratio or a reset ends the
      period, credits everybody and pays off those it is about. */
  ghost function Credit(l: Ledger, op: Op): (l': Ledger) {
    match op
    case AddRewards(coins) => l.(pot := l.pot + coins * DecimalRewards)
    case Modify(a, c) =>
      var sats := ChangedSats(StakeOf(l, a), c);
      if sats < 0 then l else WithStake(l, a, Stake(sats, ChangedBaby(StakeOf(l, a), c)))
    case Withdraw(a) => if a in l.stakes then PayOff(EndPeriod(l), {a}) else l
    case UpdateRatio(ratio, _) =>
      if ratio == l.ratio then l else PayOff(EndPeriod(l), Rescores(l, ratio)).(ratio := ratio)
    case Reset(dels, fps) =>
      PayOff(EndPeriod(l), Restakes(l, dels, fps))
        .(stakes := map a | a in l.stakes :: Stake(SatsOf(dels, fps, a), l.stakes[a].baby))
  }

  // ----- the pool seen as a ledger -----

  /** What the trackers and the period records say everybody is owed. */
  function Owed(p: Pool): (m: map<Addr, nat>) {
    if p.current.None? || p.current.value.period == 0 then map[]
    else Claims(p.historical, p.current.value.period - 1, p.trackers)
  }

  function Pot(p: Pool): (n: nat) {
    if p.current.None? then 0 else p.current.value.rewards
  }

  function StakesOf(trackers: map<Addr, Tracker>): (m: map<Addr, Stake>) {
    map a | a in trackers :: Stake(trackers[a].activeSatoshis, trackers[a].activeBaby)
  }

  function Opening(p: Pool): (l: Ledger) {
    Ledger(StakesOf(p.trackers), p.ratio, Pot(p), Owed(p), map[], 0)
  }

  ghost function LedgerOf(first: Pool, ops: seq<Op>): (l: Ledger) {
    if ops == [] then Opening(first)
    else
      var last := |ops| - 1;
      Credit(LedgerOf(first, ops[..last]), ops[last])
  }

  /** The stakes, the ratio, the pot and the debts of the pool are those of the ledger, and the
      gauges have grown by what the ledger has paid. */
  ghost predicate Agrees(first: Pool, p: Pool, l: Ledger) {
    && l.stakes == StakesOf(p.trackers) && l.ratio == p.ratio
    && l.pot == Pot(p) && l.due == Owed(p)
    && PaidOut(first.gauges, p.gauges, l.paid)
  }

  ghost predicate PaidOut(before: map<Addr, nat>, after: map<Addr, nat>, paid: map<Addr, nat>) {
    forall a :: Get(after, a) == Get(before, a) + Get(paid, a)
  }

  // ----- what each step of the pool owes and pays -----

  /** What everybody is owed after the shares of the current period. */
  function Shared(p: Pool): (m: map<Addr, nat>)
    requires p.current.Some?
  {
    map a | a in p.trackers ::
      Get(Owed(p), a) + Times(p.trackers[a].totalScore, PerScore(p.current.value.rewards, p.current.value.totalScore))
  }

  /** The debts and gauges of `q` are those of `p` with `whom` paid off after the shares. */
  ghost predicate Settled(p: Pool, whom: set<Addr>, q: Pool)
    requires p.current.Some?
  {
    && Owed(q) == (map a | a in p.trackers.Keys + whom :: if a in whom then 0 else Shared(p)[a])
    && (forall a :: Get(q.gauges, a) == Get(p.gauges, a) + if a in whom then Get(Shared(p), a) / DecimalRewards else 0)
    && Pot(q) == 0
  }

  lemma IncrementShares(p: Pool, q: Pool)
    requires Recorded(p) && Incremented(p) == Some(q)
    ensures Owed(q) == Shared(p)
  {
    hide Claim, Times, PerScore;
    forall a | a in p.trackers
      ensures Owed(q)[a] == Shared(p)[a]
    {
      ClaimGrows(p, q, a, PerScore(p.current.value.rewards, p.current.value.totalScore));
    }
  }

  lemma OwedAfterSet(p: Pool, a: Addr, t: Tracker)
    requires p.current.Some? && p.current.value.period >= 1
    ensures Owed(p.(trackers := p.trackers[a := t]))
            == Owed(p)[a := Claim(p.historical, p.current.value.period - 1, t)]
  {
    hide Claim;
  }

  lemma RewardIsOwed(p: Pool, a: Addr)
    requires Recorded(p)
    ensures Reward(p, a, p.current.value.period - 1) == Some(Get(Owed(p), a) / DecimalRewards)
  {
    if a in p.trackers && p.trackers[a].totalScore != 0 {
      RewardIsClaim(p, a);
    } else if a in p.trackers {
      NoScoreNoClaim(p.historical, p.current.value.period - 1, p.trackers[a]);
    }
  }

  lemma OwedKeys(p: Pool)
    requires p.current.Some? && p.current.value.period >= 1
    ensures Owed(p).Keys == p.trackers.Keys
  {
    hide Claim;
  }

  lemma OwedAt(p: Pool, a: Addr)
    requires p.current.Some? && p.current.value.period >= 1
    ensures Get(Owed(p), a)
            == if a in p.trackers then Claim(p.historical, p.current.value.period - 1, p.trackers[a]) else 0
  {
    hide Claim;
  }

  /** A claim depends on the score and the starting period only. */
  lemma ClaimOfParts(historical: map<nat, nat>, ended: nat, t: Tracker, t': Tracker)
    requires t.startPeriod == t'.startPeriod && t.totalScore == t'.totalScore
    ensures Claim(historical, ended, t) == Claim(historical, ended, t')
  {
    hide Times;
  }

  lemma SameClaim(p: Pool, a: Addr, t: Tracker)
    requires Solvent(p) && p.current.Some?
    requires t.startPeriod == TrackerOrNew(p, a).startPeriod && t.totalScore == TrackerOrNew(p, a).totalScore
    ensures Owed(p.(trackers := p.trackers[a := t])) == Owed(p)[a := Get(Owed(p), a)]
  {
    hide Recorded, Backed, Sum, Claim, Owed, Get;
    PeriodPositive(p);
    OwedAfterSet(p, a, t);
    OwedAt(p, a);
    if a in p.trackers {
      ClaimOfParts(p.historical, p.current.value.period - 1, t, p.trackers[a]);
    } else {
      NoScoreNoClaim(p.historical, p.current.value.period - 1, t);
    }
  }

  /** A new ratio pays off everybody whose score it changes. */
  lemma RescoredOwed(p: Pool, q: Pool, ratio: Ratio, a: Addr)
    requires Recorded(p) && a in p.trackers && a in q.trackers && q.current == p.current && q.historical == p.historical
    requires q.trackers[a] == Rescored(p.trackers[a], ratio, p.current.value.period - 1)
    ensures Get(Owed(q), a) == if Changes(p, ratio, a) then 0 else Get(Owed(p), a)
    ensures Payment(p, a, ratio, p.current.value.period - 1)
            == if Changes(p, ratio, a) then Get(Owed(p), a) / DecimalRewards else 0
  {
    hide Recorded, Claim, Score, Reward, Owed, Get;
    PeriodPositive(p);
    OwedAt(p, a);
    OwedAt(q, a);
    RewardIsOwed(p, a);
    if Changes(p, ratio, a) {
      FreshClaim(q.historical, p.current.value.period - 1, q.trackers[a]);
    }
  }

  predicate Changes(p: Pool, ratio: Ratio, a: Addr) {
    a in p.trackers && p.trackers[a].totalScore != Score(ratio, p.trackers[a].activeBaby, p.trackers[a].activeSatoshis)
  }

  lemma RescoredPaysOff(p: Pool, q: Pool, ratio: Ratio, order: seq<Addr>)
    requires Recorded(p) && Backed(p) && Walk(order, p.trackers.Keys)
    requires RescoredAll(p, order, ratio, p.current.value.period - 1) == Some(q)
    ensures Owed(q) == map a | a in p.trackers :: if Changes(p, ratio, a) then 0 else Owed(p)[a]
    ensures forall a :: Get(q.gauges, a)
                        == Get(p.gauges, a) + if Changes(p, ratio, a) then Owed(p)[a] / DecimalRewards else 0
  {
    hide Recorded, Backed, Sum, Claim, Score, RescoredAll, Reward, Payment, Rescored, Owed;
    RescoredAllKeeps(p, order, ratio);
    OwedKeys(p);
    OwedKeys(q);
    forall a | a in p.trackers
      ensures a in Owed(p) && a in Owed(q) && Owed(q)[a] == if Changes(p, ratio, a) then 0 else Owed(p)[a]
      ensures Payment(p, a, ratio, p.current.value.period - 1)
              == if Changes(p, ratio, a) then Owed(p)[a] / DecimalRewards else 0
    {
      RescoredOwed(p, q, ratio, a);
    }
  }

  lemma NothingToShare(p: Pool, q: Pool)
    requires Recorded(p) && p.current.value.rewards == 0 && Incremented(p) == Some(q)
    ensures Owed(q) == Owed(p)
  {
    IncrementShares(p, q);
    hide Claim, Incremented;
    ShareFits(0, p.current.value.totalScore);
    forall a | a in p.trackers
      ensures Owed(q)[a] == Owed(p)[a]
    {
      TimesZero(p.trackers[a].totalScore);
    }
  }

  lemma OwedIgnores(p: Pool, total: nat, ratio: Ratio)
    requires p.current.Some?
    ensures Owed(p.(current := Some(p.current.value.(totalScore := total)), ratio := ratio)) == Owed(p)
  {
  }

  lemma InitializedOwes(p: Pool)
    requires Solvent(p)
    ensures Owed(Initialized(p)) == Owed(p) && Initialized(p).gauges == p.gauges
  {
    if p.current.None? {
      assert Claims(Initialized(p).historical, 0, p.trackers) == map[];
    }
  }

  /** The satoshis of the tracker are not those of the active delegations. */
  predicate Corrects(p: Pool, dels: seq<BtcDelegation>, fps: set<Bytes>, a: Addr) {
    a in p.trackers && SatsOf(dels, fps, a) != p.trackers[a].activeSatoshis
  }

  /** A reset pays off everybody whose satoshis it corrects; current scores keep the other claims. */
  lemma ResetOwed(q: Pool, dels: seq<BtcDelegation>, fps: set<Bytes>, r: Pool, a: Addr)
    requires Recorded(q) && ScoresCurrent(q.trackers, q.ratio) && a in q.trackers && a in r.trackers
    requires r.historical == q.historical && r.current.Some? && r.current.value.period == q.current.value.period
    requires r.trackers[a] == ResetTracker(q.trackers[a], Stakes(dels, fps, a), SatsOf(dels, fps, a),
                                           q.current.value.period - 1, q.ratio)
    ensures Get(Owed(r), a) == if Corrects(q, dels, fps, a) then 0 else Get(Owed(q), a)
    ensures ResetPay(q, a, SatsOf(dels, fps, a), q.current.value.period - 1)
            == if Corrects(q, dels, fps, a) then Get(Owed(q), a) / DecimalRewards else 0
  {
    hide Recorded, Claim, Score, Reward, Owed, Get, Stakes, SatsOf;
    PeriodPositive(q);
    var ended := q.current.value.period - 1;
    NoStakeNoSats(dels, fps, a);
    OwedAt(q, a);
    OwedAt(r, a);
    RewardIsOwed(q, a);
    if Corrects(q, dels, fps, a) {
      FreshClaim(r.historical, ended, r.trackers[a]);
    } else {
      ClaimOfParts(q.historical, ended, r.trackers[a], q.trackers[a]);
    }
  }

  lemma SharedKeys(p: Pool)
    requires p.current.Some?
    ensures Shared(p).Keys == p.trackers.Keys
  {
  }

  lemma PeriodEnds(p: Pool, q: Pool)
    requires Incremented(p) == Some(q)
    ensures Pot(q) == 0 && q.trackers == p.trackers && q.gauges == p.gauges && q.ratio == p.ratio
  {
  }

  function ChangedBy(p: Pool, ratio: Ratio): (whom: set<Addr>) {
    set a | a in p.trackers && Changes(p, ratio, a)
  }

  function CorrectedBy(p: Pool, dels: seq<BtcDelegation>, fps: set<Bytes>): (whom: set<Addr>) {
    set a | a in p.trackers && Corrects(p, dels, fps, a)
  }

  lemma RestartSettles(p: Pool, a: Addr, t: Tracker, delta: int)
    requires Solvent(p) && p.current.Some? && Restarted(p, a, t, delta).Some?
    ensures Settled(p, {a}, Restarted(p, a, t, delta).value)
  {
    hide Recorded, Backed, Sum, Claims, Claim, Shared, Times, Incremented;
    IncrementKeeps(p);
    var ended := p.current.value.period;
    var q := Incremented(p).value;
    PeriodEnds(p, q);
    IncrementShares(p, q);
    SharedKeys(p);
    var t' := t.(startPeriod := ended);
    SettleKeeps(q, a, t');
    OwedAfterSet(q, a, t');
    FreshClaim(q.historical, ended, t');
    assert Reward(q, a, ended).value == Get(Owed(q), a) / DecimalRewards by { RewardIsOwed(q, a); }
  }

  /** What a new ratio leaves owed and pays, in terms of what was owed after the shares. */
  lemma RatioSettles(p: Pool, ratio: Ratio, order: seq<Addr>)
    requires Solvent(p) && ScoresCurrent(p.trackers, p.ratio) && Walk(order, p.trackers.Keys) && ratio != p.ratio
    ensures WithRatio(p, ratio, order).Some?
    ensures Settled(Initialized(p), ChangedBy(p, ratio), WithRatio(p, ratio, order).value)
  {
    hide Recorded, Backed, Sum, Claims, Claim, RescoredAll, Incremented, Score, Times, PerScore, Owed, Settled, Shared;
    InitializedSolvent(p);
    var p0 := Initialized(p);
    IncrementedInitializes(p);
    IncrementKeeps(p0);
    var q := Incremented(p0).value;
    PeriodEnds(p0, q);
    RescoredAllKeeps(q, order, ratio);
    var q1 := RescoredAll(q, order, ratio, p0.current.value.period).value;
    RescoredSettles(p0, q, q1, ratio, order);
    assert ChangedBy(p0, ratio) == ChangedBy(p, ratio);
    IncrementKeeps(q1);
    var q2 := Incremented(q1).value;
    PeriodEnds(q1, q2);
    NothingToShare(q1, q2);
    var total := SumOver(order, Scores(q1.trackers));
    OwedIgnores(q2, total, ratio);
    SettledSame(p0, ChangedBy(p, ratio), q1, q2.(current := Some(q2.current.value.(totalScore := total)), ratio := ratio));
  }

  lemma RescoredSettles(p: Pool, q: Pool, q1: Pool, ratio: Ratio, order: seq<Addr>)
    requires Solvent(p) && p.current.Some? && Incremented(p) == Some(q) && Recorded(q) && Backed(q)
    requires q.trackers == p.trackers && Walk(order, q.trackers.Keys) && q.current.value.period == p.current.value.period + 1
    requires RescoredAll(q, order, ratio, p.current.value.period) == Some(q1) && q1.current == q.current
    ensures Settled(p, ChangedBy(p, ratio), q1)
  {
    hide Recorded, Backed, Sum, Claims, Claim, RescoredAll, Incremented, Score, Times, PerScore, Owed, Shared;
    PeriodEnds(p, q);
    IncrementShares(p, q);
    SharedKeys(p);
    RescoredPaysOff(q, q1, ratio, order);
  }

  lemma SettledSame(p: Pool, whom: set<Addr>, q: Pool, q': Pool)
    requires p.current.Some? && Settled(p, whom, q) && Owed(q') == Owed(q) && q'.gauges == q.gauges && Pot(q') == 0
    ensures Settled(p, whom, q')
  {
    hide Owed, Shared, Pot;
  }

  /** A reset pays off exactly those whose satoshis it corrects and leaves every other debt as it is
      after the shares. */
  lemma ResetSettles(p: Pool, dels: seq<BtcDelegation>, fps: set<Bytes>, r: Pool)
    requires Solvent(p) && ScoresCurrent(p.trackers, p.ratio) && ResetTo(p, dels, fps, r)
    ensures Settled(Initialized(p), CorrectedBy(p, dels, fps), r)
  {
    hide Recorded, Backed, Sum, Claim, Score, Times, PerScore, Owed, Shared, SatsOf, Stakes, ResetTracker, Incremented;
    InitializedSolvent(p);
    IncrementedInitializes(p);
    EndedPeriod(p);
    var q := Incremented(p).value;
    PeriodEnds(Initialized(p), q);
    IncrementShares(Initialized(p), q);
    SharedKeys(Initialized(p));
    ResetOwes(p, q, dels, fps, r);
    hide ResetTo;
  }

  /** What a reset leaves owed and pays, in terms of the debts `q` at the end of the period. */
  lemma ResetOwes(p: Pool, q: Pool, dels: seq<BtcDelegation>, fps: set<Bytes>, r: Pool)
    requires ResetTo(p, dels, fps, r) && Incremented(p) == Some(q) && Recorded(q) && ScoresCurrent(p.trackers, p.ratio)
    requires q.trackers == p.trackers && q.ratio == p.ratio && q.gauges == p.gauges
    requires q.current.value.period == Initialized(p).current.value.period + 1
    ensures Owed(q).Keys == p.trackers.Keys && Pot(r) == Pot(q)
    ensures Owed(r) == map a | a in p.trackers :: if Corrects(p, dels, fps, a) then 0 else Owed(q)[a]
    ensures forall a :: Get(r.gauges, a)
                        == Get(p.gauges, a) + if Corrects(p, dels, fps, a) then Owed(q)[a] / DecimalRewards else 0
  {
    hide Recorded, Sum, Claim, Score, Owed, SatsOf, Stakes, ResetTracker, ResetPay, Incremented;
    PeriodPositive(q);
    OwedKeys(q);
    OwedKeys(r);
    forall a | a in p.trackers
      ensures a in Owed(q) && a in Owed(r) && Owed(r)[a] == if Corrects(p, dels, fps, a) then 0 else Owed(q)[a]
      ensures ResetPay(q, a, SatsOf(dels, fps, a), Initialized(p).current.value.period)
              == if Corrects(p, dels, fps, a) then Owed(q)[a] / DecimalRewards else 0
    {
      ResetOwed(q, dels, fps, r, a);
    }
  }

  // ----- agreement -----

  /** The ledger's own scores are the stored ones, so both share out the pot alike. */
  lemma SharesAgree(first: Pool, p: Pool, l: Ledger)
    requires Solvent(p) && p.current.Some? && ScoresCurrent(p.trackers, p.ratio) && Agrees(first, p, l)
    ensures EndPeriod(l).due == Shared(p)
  {
    hide Recorded, Backed, Sum, Score, Times, PerScore, Owed;
    assert ScoresOf(l) == Scores(p.trackers);
  }

  lemma SettledAgrees(first: Pool, p: Pool, l: Ledger, whom: set<Addr>, q: Pool)
    requires Solvent(p) && p.current.Some? && ScoresCurrent(p.trackers, p.ratio) && Agrees(first, p, l)
    requires Settled(p, whom, q)
    ensures var l' := PayOff(EndPeriod(l), whom);
            && l'.due == Owed(q) && l'.pot == Pot(q) && PaidOut(first.gauges, q.gauges, l'.paid)
            && l'.stakes == l.stakes && l'.ratio == l.ratio
  {
    SharesAgree(first, p, l);
    SharedKeys(p);
    hide Solvent, ScoresCurrent, Owed, Shared, Sum, Score, Times, PerScore;
  }

  lemma InitializedAgrees(first: Pool, p: Pool, l: Ledger)
    requires Solvent(p) && Agrees(first, p, l)
    ensures Solvent(Initialized(p)) && Initialized(p).current.Some? && Agrees(first, Initialized(p), l)
    ensures Initialized(p).trackers == p.trackers && Initialized(p).ratio == p.ratio
  {
    hide Recorded, Backed, Sum, Owed;
    InitializedSolvent(p);
    InitializedOwes(p);
  }

  lemma ModifyAgrees(first: Pool, p: Pool, l: Ledger, a: Addr, c: Change)
    requires Solvent(p) && ScoresCurrent(p.trackers, p.ratio) && Agrees(first, p, l)
    requires Modified(p, a, c).Some?
    ensures Agrees(first, Modified(p, a, c).value, Credit(l, Modify(a, c)))
  {
    hide Recorded, Backed, Sum, Score, Restarted, WithStake, Agrees, Owed, Coins, ScoresCurrent;
    ModifiedKeeps(p, a, c);
    InitializedAgrees(first, p, l);
    LedgerStake(first, p, l, a);
    var t := TrackerOrNew(p, a);
    var score := Score(p.ratio, Baby(t, c), Sats(t, c));
    StakeAgrees(first, Initialized(p), l, a, Tracker(t.startPeriod, Sats(t, c), Baby(t, c), score), t);
  }

  lemma LedgerStake(first: Pool, p: Pool, l: Ledger, a: Addr)
    requires Agrees(first, p, l)
    ensures StakeOf(l, a) == Stake(TrackerOrNew(p, a).activeSatoshis, TrackerOrNew(p, a).activeBaby)
  {
  }

  /** A new stake with or without a new score. */
  lemma StakeAgrees(first: Pool, p: Pool, l: Ledger, a: Addr, t: Tracker, before: Tracker)
    requires Solvent(p) && p.current.Some? && ScoresCurrent(p.trackers, p.ratio) && Agrees(first, p, l)
    requires before == TrackerOrNew(p, a) && t.startPeriod == before.startPeriod
    requires t.totalScore == Score(p.ratio, t.activeBaby, t.activeSatoshis)
    ensures var l' := WithStake(l, a, Stake(t.activeSatoshis, t.activeBaby));
            && (t.totalScore == before.totalScore ==> Agrees(first, p.(trackers := p.trackers[a := t]), l'))
            && (t.totalScore != before.totalScore && Restarted(p, a, t, t.totalScore - before.totalScore).Some? ==>
                  Agrees(first, Restarted(p, a, t, t.totalScore - before.totalScore).value, l'))
  {
    hide Recorded, Backed, Sum, Score, Restarted, EndPeriod, PayOff, Owed, Coins;
    ScoreAt(p, l, a);
    StakesSet(p.trackers, a, t);
    if t.totalScore == before.totalScore {
      SameClaim(p, a, t);
    } else {
      var r := Restarted(p, a, t, t.totalScore - before.totalScore);
      if r.Some? {
        RestartedStakes(p, a, t, t.totalScore - before.totalScore);
        RestartSettles(p, a, t, t.totalScore - before.totalScore);
        SettledAgrees(first, p, l, {a}, r.value);
      }
    }
  }

  lemma StakesSet(trackers: map<Addr, Tracker>, a: Addr, t: Tracker)
    ensures StakesOf(trackers[a := t]) == StakesOf(trackers)[a := Stake(t.activeSatoshis, t.activeBaby)]
  {
  }

  lemma RestartedStakes(p: Pool, a: Addr, t: Tracker, delta: int)
    requires p.current.Some? && Restarted(p, a, t, delta).Some?
    ensures var r := Restarted(p, a, t, delta).value;
            r.ratio == p.ratio && StakesOf(r.trackers) == StakesOf(p.trackers)[a := Stake(t.activeSatoshis, t.activeBaby)]
  {
    hide Reward;
    StakesSet(p.trackers, a, t.(startPeriod := p.current.value.period));
  }

  lemma ScoreAt(p: Pool, l: Ledger, a: Addr)
    requires ScoresCurrent(p.trackers, p.ratio) && l.stakes == StakesOf(p.trackers) && l.ratio == p.ratio
    ensures var t, s := TrackerOrNew(p, a), StakeOf(l, a);
            && s == Stake(t.activeSatoshis, t.activeBaby)
            && Score(l.ratio, s.baby, s.sats) == t.totalScore
  {
  }

  lemma WithdrawAgrees(first: Pool, p: Pool, l: Ledger, a: Addr)
    requires Solvent(p) && ScoresCurrent(p.trackers, p.ratio) && Agrees(first, p, l) && a in p.trackers
    ensures Withdrawn(p, a).Some? && Agrees(first, Withdrawn(p, a).value, Credit(l, Withdraw(a)))
  {
    hide Recorded, Backed, Sum, Score, Restarted, EndPeriod, PayOff, Owed, Coins, ScoresCurrent;
    WithdrawnKeeps(p, a);
    RestartSettles(p, a, p.trackers[a], 0);
    SettledAgrees(first, p, l, {a}, Withdrawn(p, a).value);
  }

  lemma RatioAgrees(first: Pool, p: Pool, l: Ledger, ratio: Ratio, order: seq<Addr>)
    requires Solvent(p) && ScoresCurrent(p.trackers, p.ratio) && Agrees(first, p, l) && Walk(order, p.trackers.Keys)
    ensures WithRatio(p, ratio, order).Some?
    ensures Agrees(first, WithRatio(p, ratio, order).value, Credit(l, UpdateRatio(ratio, order)))
  {
    hide Solvent, Sum, Score, WithRatio, EndPeriod, PayOff, Owed, Pot, Coins, Settled, ScoresCurrent, Rescores, ChangedBy;
    if ratio == p.ratio {
      SameRatio(p, order);
    } else {
      InitializedAgrees(first, p, l);
      RatioSettles(p, ratio, order);
      var q := WithRatio(p, ratio, order).value;
      SameRescores(p, l, ratio);
      SettledAgrees(first, Initialized(p), l, ChangedBy(p, ratio), q);
      RatioKeepsStakes(p, ratio, order);
    }
  }

  lemma SameRescores(p: Pool, l: Ledger, ratio: Ratio)
    requires ScoresCurrent(p.trackers, p.ratio) && l.stakes == StakesOf(p.trackers) && l.ratio == p.ratio
    ensures ChangedBy(p, ratio) == Rescores(l, ratio)
  {
    hide Score;
  }

  lemma RatioKeepsStakes(p: Pool, ratio: Ratio, order: seq<Addr>)
    requires Solvent(p) && ScoresCurrent(p.trackers, p.ratio) && Walk(order, p.trackers.Keys)
    ensures WithRatio(p, ratio, order).Some?
    ensures var q := WithRatio(p, ratio, order).value;
            StakesOf(q.trackers) == StakesOf(p.trackers) && q.ratio == ratio
  {
    hide Solvent, ScoresCurrent, WithRatio, Walk, Coins;
    WithRatioKeeps(p, ratio, order);
  }

  lemma SameRatio(p: Pool, order: seq<Addr>)
    requires Walk(order, p.trackers.Keys)
    ensures WithRatio(p, p.ratio, order) == Some(p)
  {
  }

  lemma ResetAgrees(first: Pool, p: Pool, l: Ledger, dels: seq<BtcDelegation>, fps: set<Bytes>, r: Pool)
    requires Solvent(p) && ScoresCurrent(p.trackers, p.ratio) && Agrees(first, p, l) && ResetTo(p, dels, fps, r)
    ensures Agrees(first, r, Credit(l, Reset(dels, fps)))
  {
    hide Solvent, Sum, Score, EndPeriod, PayOff, Owed, Coins, Settled, ResetTo, SatsOf, ScoresCurrent;
    ResetKeeps(p, dels, fps, r);
    InitializedAgrees(first, p, l);
    ResetSettles(p, dels, fps, r);
    assert CorrectedBy(p, dels, fps) == Restakes(l, dels, fps);
    SettledAgrees(first, Initialized(p), l, CorrectedBy(p, dels, fps), r);
    ResetStakes(p, dels, fps, r);
  }

  lemma ResetStakes(p: Pool, dels: seq<BtcDelegation>, fps: set<Bytes>, r: Pool)
    requires ResetTo(p, dels, fps, r)
    ensures StakesOf(r.trackers) == map a | a in p.trackers :: Stake(SatsOf(dels, fps, a), p.trackers[a].activeBaby)
  {
    hide SatsOf, Incremented, Sum;
    forall a | a in p.trackers
      ensures a in r.trackers && StakesOf(r.trackers)[a] == Stake(SatsOf(dels, fps, a), p.trackers[a].activeBaby)
    {
      ResetSets(p, dels, fps, r, a);
    }
    assert r.trackers.Keys == p.trackers.Keys;
  }

  lemma AddAgrees(first: Pool, p: Pool, l: Ledger, coins: nat)
    requires Solvent(p) && Agrees(first, p, l)
    ensures Agrees(first, Added(p, coins), Credit(l, AddRewards(coins)))
  {
    hide Recorded, Backed, Sum, Claims;
    InitializedAgrees(first, p, l);
  }

  lemma StepAgrees(first: Pool, p: Pool, op: Op, q: Pool, l: Ledger)
    requires Solvent(p) && ScoresCurrent(p.trackers, p.ratio) && Step(p, op, q) && Agrees(first, p, l)
    ensures Agrees(first, q, Credit(l, op))
  {
    hide Solvent, ScoresCurrent, Modified, Withdrawn, WithRatio, Added, ResetPayable, ResetTo, Owed, PaidOut, EndPeriod,
      PayOff, WithStake, Coins, Score, Sum;
    match op
    case AddRewards(coins) =>
      AddAgrees(first, p, l, coins);
    case Modify(a, c) =>
      ModifiedKeeps(p, a, c);
      if Modified(p, a, c).Some? {
        ModifyAgrees(first, p, l, a, c);
      }
    case Withdraw(a) =>
      WithdrawnKeeps(p, a);
      if a in p.trackers {
        WithdrawAgrees(first, p, l, a);
      }
    case UpdateRatio(ratio, order) =>
      RatioAgrees(first, p, l, ratio, order);
    case Reset(dels, fps) =>
      SolventPayable(p, dels, fps);
      ResetAgrees(first, p, l, dels, fps, q);
  }

  /** Over a whole run the stakes, the rewards of the current period, what the period records say
      everybody is owed and what has gone to every gauge are exactly what the ledger says, which
      knows only the first state and the operations. */
  lemma {:induction false} RunAgreesWithLedger(states: seq<Pool>, ops: seq<Op>)
    requires Run(states, ops)
    ensures Agrees(states[0], states[|ops|], LedgerOf(states[0], ops))
  {
    hide Solvent, ScoresCurrent, Step, Credit, Coins, Owed;
    if ops != [] {
      var last := |ops| - 1;
      RunPrefix(states, ops);
      RunIsSolvent(states[..last + 1], ops[..last]);
      RunAgreesWithLedger(states[..last + 1], ops[..last]);
      StepAgrees(states[0], states[last], ops[last], states[last + 1], LedgerOf(states[0], ops[..last]));
    }
  }

  // ----- where every unit goes -----

  /** Everything the ledger accounts for, in reward units. */
  ghost function Held(l: Ledger): (n: nat) {
    l.pot + Sum(l.due) + Sum(l.paid) * DecimalRewards + l.rest
  }

  lemma SharesExact(pot: nat, total: nat)
    ensures Times(total, PerScore(pot, total)) + Leftover(pot, total) == pot
  {
  }

  lemma EndPeriodHolds(l: Ledger)
    requires l.due.Keys == l.stakes.Keys
    ensures Held(EndPeriod(l)) == Held(l) && EndPeriod(l).due.Keys == l.stakes.Keys && EndPeriod(l).stakes == l.stakes
  {
    hide Sum, Times, PerScore, Score, Leftover;
    var scores := ScoresOf(l);
    var per := PerScore(l.pot, Sum(scores));
    var gain := map a | a in l.stakes :: Times(scores[a], per);
    SumTimes(scores, per, gain);
    SumAdd(l.due, gain, EndPeriod(l).due);
    SharesExact(l.pot, Sum(scores));
  }

  lemma PayOffHolds(l: Ledger, whom: set<Addr>)
    ensures Held(PayOff(l, whom)) == Held(l)
    ensures PayOff(l, whom).due.Keys == l.due.Keys + whom && PayOff(l, whom).stakes == l.stakes
  {
    hide Sum, Times, Get;
    var l' := PayOff(l, whom);
    var whole := map a | a in whom :: Get(l.due, a) / DecimalRewards;
    var frac := map a | a in whom :: Get(l.due, a) % DecimalRewards;
    DueSplits(l, whom, whole, frac);
    assert Sum(l'.paid) == Sum(l.paid) + Sum(whole) by {
      PaidGrows(l, whom, whole);
      GaugesSum(l.paid, whole, l'.paid);
    }
  }

  lemma PaidGrows(l: Ledger, whom: set<Addr>, whole: map<Addr, nat>)
    requires whole == map a | a in whom :: Get(l.due, a) / DecimalRewards
    ensures forall a :: Get(PayOff(l, whom).paid, a) == Get(l.paid, a) + Get(whole, a)
  {
    hide Sum;
  }

  /** What is due is what stays due, the whole coins that are paid, and the fractions. */
  lemma DueSplits(l: Ledger, whom: set<Addr>, whole: map<Addr, nat>, frac: map<Addr, nat>)
    requires whole == map a | a in whom :: Get(l.due, a) / DecimalRewards
    requires frac == map a | a in whom :: Get(l.due, a) % DecimalRewards
    ensures Sum(l.due) == Sum(PayOff(l, whom).due) + Sum(whole) * DecimalRewards + Sum(frac)
  {
    hide Sum, Times;
    var units := map a | a in whom :: Times(whole[a], DecimalRewards);
    var gone := map a | a in whom :: Get(l.due, a);
    forall a | a in whom
      ensures gone[a] == units[a] + frac[a]
    {
      WholeAndFraction(Get(l.due, a));
    }
    SumTimes(whole, DecimalRewards, units);
    WholeUnits(Sum(whole));
    SumAdd(units, frac, gone);
    GaugesSum(PayOff(l, whom).due, gone, l.due);
  }

  lemma WholeAndFraction(n: nat)
    ensures n == Times(n / DecimalRewards, DecimalRewards) + n % DecimalRewards
  {
  }

  lemma WholeUnits(n: nat)
    ensures Times(n, DecimalRewards) == n * DecimalRewards
  {
  }

  lemma CreditHolds(l: Ledger, op: Op)
    requires l.due.Keys == l.stakes.Keys
    ensures Held(Credit(l, op)) == Held(l) + if op.AddRewards? then op.coins * DecimalRewards else 0
    ensures Credit(l, op).due.Keys == Credit(l, op).stakes.Keys
  {
    hide EndPeriod, PayOff, Sum, Score;
    EndPeriodHolds(l);
    match op
    case AddRewards(coins) =>
    case Modify(a, c) =>
      PayOffHolds(EndPeriod(l), {a});
      SumUpdate(l.due, a, Get(l.due, a));
    case Withdraw(a) =>
      PayOffHolds(EndPeriod(l), {a});
    case UpdateRatio(ratio, _) =>
      PayOffHolds(EndPeriod(l), Rescores(l, ratio));
    case Reset(dels, fps) =>
      PayOffHolds(EndPeriod(l), Restakes(l, dels, fps));
  }

  lemma {:induction false} LedgerHolds(first: Pool, ops: seq<Op>)
    requires Start(first)
    ensures Held(LedgerOf(first, ops)) == Held(Opening(first)) + TotalAdded(ops) * DecimalRewards
    ensures LedgerOf(first, ops).due.Keys == LedgerOf(first, ops).stakes.Keys
  {
    hide Credit, Held, Solvent, ScoresCurrent;
    if ops == [] {
      OpeningKeys(first);
    } else {
      var last := |ops| - 1;
      LedgerHolds(first, ops[..last]);
      CreditHolds(LedgerOf(first, ops[..last]), ops[last]);
    }
  }

  lemma OpeningKeys(first: Pool)
    requires Solvent(first)
    ensures Owed(first).Keys == StakesOf(first.trackers).Keys
  {
    hide Backed, Sum, Claim;
  }

  /** The reward units in the account that belong to nobody. */
  ghost function Slack(p: Pool): (n: int) {
    p.balance * DecimalRewards - Pot(p) - Sum(Owed(p))
  }

  /** The account holds exactly the undistributed rewards, everything owed, what belonged to nobody
      at the start, and the remainders of the divisions since. */
  lemma RunBalances(states: seq<Pool>, ops: seq<Op>)
    requires Run(states, ops)
    ensures var p, l := states[|ops|], LedgerOf(states[0], ops);
            && p.balance * DecimalRewards == Pot(p) + Sum(Owed(p)) + Slack(states[0]) + l.rest
            && (states[0].balance + TotalAdded(ops)) * DecimalRewards
               == l.pot + Sum(l.due) + Sum(l.paid) * DecimalRewards + l.rest + Slack(states[0])
  {
    hide Solvent, ScoresCurrent, Step, Owed, Pot, Sum;
    var first, p, l := states[0], states[|ops|], LedgerOf(states[0], ops);
    RunAgreesWithLedger(states, ops);
    RunIsSolvent(states, ops);
    LedgerHolds(first, ops);
    GaugesSum(first.gauges, l.paid, p.gauges);
    assert Sum(Opening(first).paid) == 0 by { SumZero(Opening(first).paid); }
  }
}
