/** Whole runs of the co-staking module, resets included: solvency and what is refused. */
module CostakingRuns {
  import opened Prelude
  import opened MapSum
  import opened Costaking
  import opened CostakingInit
  import opened CostakingReset

  datatype Op =
    | AddRewards(coins: nat)
    | Modify(addr: Addr, change: Change)
    | Withdraw(addr: Addr)
    | UpdateRatio(ratio: Ratio, order: seq<Addr>)
    | Reset(dels: seq<BtcDelegation>, fps: set<Bytes>)

  function OrUnchanged(p: Pool, r: Option<Pool>): (q: Pool) {
    if r.Some? then r.value else p
  }

  /** One transaction, or a reset of the trackers; a refused one is rolled back. */
  ghost predicate Step(p: Pool, op: Op, q: Pool) {
    match op
    case AddRewards(coins) => q == Added(p, coins)
    case Modify(a, c) => q == OrUnchanged(p, Modified(p, a, c))
    case Withdraw(a) => q == OrUnchanged(p, Withdrawn(p, a))
    case UpdateRatio(ratio, order) =>
      Walk(order, p.trackers.Keys) && q == OrUnchanged(p, WithRatio(p, ratio, order))
    case Reset(dels, fps) =>
      if ResetPayable(p, dels, fps) then ResetTo(p, dels, fps, q) else q == p
  }

  /** What a run can start from. */
  ghost predicate Start(p: Pool) {
    Solvent(p) && ScoresCurrent(p.trackers, p.ratio)
  }

  ghost predicate Run(states: seq<Pool>, ops: seq<Op>) {
    && |states| == |ops| + 1
    && Start(states[0])
    && forall i :: 0 <= i < |ops| ==> Step(states[i], ops[i], states[i + 1])
  }

  function TotalAdded(ops: seq<Op>): (n: nat) {
    if ops == [] then 0
    else
      var last := |ops| - 1;
      TotalAdded(ops[..last]) + if ops[last].AddRewards? then ops[last].coins else 0
  }

  lemma StepKeeps(p: Pool, op: Op, q: Pool)
    requires Solvent(p) && ScoresCurrent(p.trackers, p.ratio) && Step(p, op, q)
    ensures Solvent(q) && ScoresCurrent(q.trackers, q.ratio)
    ensures Coins(q) == Coins(p) + if op.AddRewards? then op.coins else 0
  {
    hide Solvent, Coins, Score, Modified, Withdrawn, WithRatio, Added, ResetPayable, ResetTo;
    match op
    case AddRewards(coins) =>
      AddedKeeps(p, coins);
      RatioKept(p, coins);
    case Modify(a, c) =>
      ModifiedKeeps(p, a, c);
    case Withdraw(a) =>
      WithdrawnKeeps(p, a);
    case UpdateRatio(ratio, order) =>
      WithRatioKeeps(p, ratio, order);
    case Reset(dels, fps) =>
      if ResetPayable(p, dels, fps) {
        ResetKeeps(p, dels, fps, q);
      }
  }

  lemma RatioKept(p: Pool, coins: nat)
    ensures Added(p, coins).ratio == p.ratio
  {
  }

  /** In every reachable state the module can pay everything it owes, every score is the one the
      stakes give, and no coin has been made or lost. */
  lemma {:induction false} RunIsSolvent(states: seq<Pool>, ops: seq<Op>)
    requires Run(states, ops)
    ensures var p := states[|ops|];
            && Solvent(p) && ScoresCurrent(p.trackers, p.ratio)
            && Coins(p) == Coins(states[0]) + TotalAdded(ops)
  {
    hide Solvent, Coins, ScoresCurrent, Step;
    if ops != [] {
      var last := |ops| - 1;
      RunPrefix(states, ops);
      RunIsSolvent(states[..last + 1], ops[..last]);
      StepKeeps(states[last], ops[last], states[last + 1]);
    }
  }

  /** A run can start from the empty store. */
  lemma FreshStarts(p: Pool)
    requires p.current.None? && p.trackers == map[]
    ensures Run([p], [])
  {
  }

  /** A run can start from the store that the first upgrade leaves, under the default ratio. */
  lemma UpgradeStarts(p: Pool, q: Pool, dels: seq<BtcDelegation>, fps: set<Bytes>, babies: seq<BabyDelegation>,
                      scores: map<Addr, nat>)
    requires p.trackers == map[] && p.current.None? && p.ratio == DefaultRatio
    requires forall a :: Find(q.trackers, a) == InitTracker(None, dels, fps, babies, a)
    requires forall a :: a in scores <==> Delegates(babies, a)
    requires forall a :: a in scores ==> a in q.trackers && scores[a] == q.trackers[a].totalScore
    requires Incremented(p).Some?
    requires var i := Incremented(p).value;
             q == i.(trackers := q.trackers, current := Some(i.current.value.(totalScore := Sum(scores))))
    ensures Run([q], [])
  {
    InitializedFromNew(p, q, dels, fps, babies, scores);
    hide Solvent, ScoresCurrent, Sum, InitTracker, Find, Delegates;
  }

  /** In every reachable state the reset can be paid and leaves a state a run can go on from. */
  lemma ResetInRuns(states: seq<Pool>, ops: seq<Op>, dels: seq<BtcDelegation>, fps: set<Bytes>, r: Pool)
    requires Run(states, ops) && ResetTo(states[|ops|], dels, fps, r)
    ensures ResetPayable(states[|ops|], dels, fps)
    ensures Solvent(r) && ScoresCurrent(r.trackers, states[|ops|].ratio) && Coins(r) == Coins(states[|ops|])
    ensures Run([r], [])
  {
    hide Solvent, ScoresCurrent, ResetPayable, ResetTo, Step, Coins;
    RunIsSolvent(states, ops);
    ResetKeeps(states[|ops|], dels, fps, r);
  }

  /** No run reaches a stored score that is not the current one. */
  lemma StaleScoreUnreachable(states: seq<Pool>, ops: seq<Op>, a: Addr, s: nat)
    requires Run(states, ops) && states[|ops|] == StalePool(a, s)
    ensures s == 10
  {
    hide Solvent, Step, Coins;
    RunIsSolvent(states, ops);
    assert a in states[|ops|].trackers;
  }

  lemma RunPrefix(states: seq<Pool>, ops: seq<Op>)
    requires Run(states, ops) && ops != []
    ensures Run(states[..|ops|], ops[..|ops| - 1])
  {
    hide Step;
  }

  /** Nobody is refused for lack of funds: a change is refused only if it takes away satoshis
      that are not there, a withdrawal only if there is no tracker, a new ratio and a reset never. */
  lemma RefusalsInRuns(states: seq<Pool>, ops: seq<Op>, a: Addr, c: Change, ratio: Ratio, order: seq<Addr>,
                       dels: seq<BtcDelegation>, fps: set<Bytes>)
    requires Run(states, ops) && Walk(order, states[|ops|].trackers.Keys)
    ensures var p := states[|ops|];
            && (Modified(p, a, c).None? <==> Sats(TrackerOrNew(p, a), c) < 0)
            && (Withdrawn(p, a).None? <==> a !in p.trackers)
            && WithRatio(p, ratio, order).Some?
            && ResetPayable(p, dels, fps)
  {
    hide Solvent, ScoresCurrent, Modified, Withdrawn, WithRatio, ResetPayable, Step, Coins;
    var p := states[|ops|];
    RunIsSolvent(states, ops);
    ModifiedKeeps(p, a, c);
    WithdrawnKeeps(p, a);
    WithRatioKeeps(p, ratio, order);
    SolventPayable(p, dels, fps);
  }
}
