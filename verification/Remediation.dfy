/** Unbonding the parents of stake expansions that were unbonded before their inclusion
    (app/upgrades/v4_3/upgrade.go), with the delegation status it relies on
    (x/btcstaking/types/btc_delegation.go, x/btcstaking/keeper/btc_delegations.go). */
module Remediation {
  import opened Prelude

  type Hash = Bytes

  datatype Undelegation = Undelegation(delegatorUnbondingInfo: Option<Bytes>, slashingSigs: nat, unbondingSigs: nat)

  datatype StakeExpansion = StakeExpansion(previousStakingTxHash: Bytes, previousStkSigs: nat)

  datatype Delegation = Delegation(
    stakingTx: Bytes,
    paramsVersion: nat,
    startHeight: uint32,
    endHeight: uint32,
    unbondingTime: uint32,
    covenantSigs: nat,
    undelegation: Option<Undelegation>,
    stkExp: Option<StakeExpansion>)

  datatype Status = Pending | Verified | Active | Unbonded | Expired

  // ----- status of one delegation -----

  predicate HasInclusionProof(d: Delegation) {
    d.startHeight > 0 && d.endHeight > 0
  }

  predicate UnbondedEarly(d: Delegation) {
    d.undelegation.Some? && d.undelegation.value.delegatorUnbondingInfo.Some?
  }

  predicate HasCovenantQuorums(d: Delegation, quorum: nat, quorumPreviousStk: nat)
    requires d.undelegation.Some?
  {
    && d.covenantSigs >= quorum
    && d.undelegation.value.unbondingSigs >= quorum
    && d.undelegation.value.slashingSigs >= quorum
    && (d.stkExp.Some? ==> d.stkExp.value.previousStkSigs >= quorumPreviousStk)
  }

  function GetStatus(d: Delegation, btcHeight: uint32, quorum: nat, quorumPreviousStk: nat): (s: Status)
    requires d.undelegation.Some?
  {
    if UnbondedEarly(d) then Unbonded
    else if !HasCovenantQuorums(d, quorum, quorumPreviousStk) then Pending
    else if !HasInclusionProof(d) then Verified
    else if btcHeight < d.startHeight then Unbonded
    else if (btcHeight + d.unbondingTime) % 0x1_0000_0000 >= d.endHeight then Expired
    else Active
  }

  // ----- status in the store -----

  datatype Chain = Chain(
    delegations: map<Hash, Delegation>,
    quorums: map<nat, nat>,   // params version -> covenant quorum
    btcTip: uint32)

  datatype Params = Resolved(quorum: nat, quorumPreviousStk: nat) | Missing | Crash

  /** Looks up the quorums of a delegation and of the ones it expands. A malformed hash on the
      way, or going round in circles, brings the node down. */
  function GetBTCDelWithParams(c: Chain, h: Hash, unvisited: set<Hash>): (p: Params)
    decreases |unvisited|
  {
    if h !in c.delegations || c.delegations[h].paramsVersion !in c.quorums then Missing
    else
      var d := c.delegations[h];
      var quorum := c.quorums[d.paramsVersion];
      if d.stkExp.None? then Resolved(quorum, 0)
      else if |d.stkExp.value.previousStakingTxHash| != 32 || h !in unvisited then Crash
      else
        match GetBTCDelWithParams(c, d.stkExp.value.previousStakingTxHash, unvisited - {h})
        case Missing => Missing
        case Crash => Crash
        case Resolved(previous, _) => Resolved(quorum, previous)
  }

  /** Whether a delegation is active; `None` when the check brings the node down. */
  function IsBtcDelegationActive(c: Chain, h: Hash): (r: Option<bool>) {
    match GetBTCDelWithParams(c, h, c.delegations.Keys)
    case Missing => Some(false)
    case Crash => None
    case Resolved(quorum, previous) =>
      if h !in c.delegations then Some(false)
      else if c.delegations[h].undelegation.None? then None
      else Some(GetStatus(c.delegations[h], c.btcTip, quorum, previous) == Active)
  }

  // ----- what an active delegation is -----

  predicate Known(c: Chain, h: Hash) {
    h in c.delegations && c.delegations[h].paramsVersion in c.quorums
  }

  /** The hash of the delegation that `d` expands. */
  function PreviousOf(d: Delegation): (h: Hash) {
    if d.stkExp.Some? then d.stkExp.value.previousStakingTxHash else []
  }

  predicate Expands(c: Chain, h: Hash, previous: Hash) {
    && h in c.delegations && c.delegations[h].stkExp.Some?
    && previous == PreviousOf(c.delegations[h]) && |previous| == 32
  }

  /** `path` leads from `h` to the delegation it expands, from there to the one that one expands,
      and so on, through known delegations and, up to its end, without coming back. */
  ghost predicate Lineage(c: Chain, h: Hash, path: seq<Hash>) {
    && path != [] && path[0] == h
    && (forall i :: 0 <= i < |path| ==> Known(c, path[i]))
    && (forall i, j :: 0 <= i && j == i + 1 < |path| ==> Expands(c, path[i], path[j]))
    && Distinct(path[..|path| - 1])
  }

  function End(c: Chain, path: seq<Hash>): (d: Delegation)
    requires path != [] && path[|path| - 1] in c.delegations
  {
    c.delegations[path[|path| - 1]]
  }

  /** The lineage ends in a delegation that expands nothing. */
  ghost predicate Rooted(c: Chain, h: Hash) {
    exists path :: RootPath(c, h, path)
  }

  ghost predicate RootPath(c: Chain, h: Hash, path: seq<Hash>) {
    Lineage(c, h, path) && End(c, path).stkExp.None?
  }

  /** The lineage runs into a malformed hash or comes back to itself. */
  ghost predicate Broken(c: Chain, h: Hash) {
    exists path :: BreakPath(c, h, path)
  }

  ghost predicate BreakPath(c: Chain, h: Hash, path: seq<Hash>) {
    && Lineage(c, h, path) && End(c, path).stkExp.Some?
    && (|PreviousOf(End(c, path))| != 32 || path[|path| - 1] in path[..|path| - 1])
  }

  /** Enough covenant signatures for the quorum of its own params and, for an expansion, for the
      quorum of the delegation it expands; not unbonded; included, and neither too early nor
      within the unbonding time of its end. */
  predicate ActiveFields(c: Chain, h: Hash) {
    && Known(c, h)
    && var d, quorum := c.delegations[h], c.quorums[c.delegations[h].paramsVersion];
    && d.undelegation.Some? && d.undelegation.value.delegatorUnbondingInfo.None?
    && d.covenantSigs >= quorum
    && d.undelegation.value.unbondingSigs >= quorum
    && d.undelegation.value.slashingSigs >= quorum
    && (d.stkExp.Some? ==>
          && Known(c, PreviousOf(d))
          && d.stkExp.value.previousStkSigs >= c.quorums[c.delegations[PreviousOf(d)].paramsVersion])
    && 0 < d.startHeight <= c.btcTip && 0 < d.endHeight
    && (c.btcTip + d.unbondingTime) % 0x1_0000_0000 < d.endHeight
  }

  ghost predicate ActiveDelegation(c: Chain, h: Hash) {
    Rooted(c, h) && ActiveFields(c, h)
  }

  /** One step down the lineage. */
  lemma LineageCons(c: Chain, h: Hash, path: seq<Hash>)
    requires Known(c, h) && c.delegations[h].stkExp.Some? && |PreviousOf(c.delegations[h])| == 32
    requires Lineage(c, PreviousOf(c.delegations[h]), path) && h !in path[..|path| - 1]
    ensures Lineage(c, h, [h] + path)
  {
    var all := [h] + path;
    assert all[..|all| - 1] == [h] + path[..|path| - 1];
    forall i, j | 0 <= i && j == i + 1 < |all|
      ensures Expands(c, all[i], all[j])
    {
      assert i > 0 ==> Expands(c, path[i - 1], path[i]);
    }
  }

  lemma LineageTail(c: Chain, h: Hash, path: seq<Hash>)
    requires Lineage(c, h, path) && |path| > 1
    ensures Expands(c, h, path[1]) && Lineage(c, path[1], path[1..])
    ensures path[..|path| - 1] == [h] + path[1..][..|path| - 2] && h !in path[1..][..|path| - 2]
  {
    var rest := path[1..];
    var front, restFront := path[..|path| - 1], rest[..|rest| - 1];
    assert front == [h] + restFront;
    assert forall i :: 0 <= i < |restFront| ==> restFront[i] == front[i + 1];
    assert front[0] == h;
    assert Expands(c, path[0], path[1]);
    forall i | 0 <= i < |rest|
      ensures Known(c, rest[i])
    {
      assert rest[i] == path[i + 1];
    }
    forall i, j | 0 <= i && j == i + 1 < |rest|
      ensures Expands(c, rest[i], rest[j])
    {
      assert Expands(c, path[i + 1], path[j + 1]);
    }
  }

  ghost predicate Within(path: seq<Hash>, unvisited: set<Hash>)
    requires path != []
  {
    forall i :: 0 <= i < |path| - 1 ==> path[i] in unvisited
  }

  ghost predicate BreaksWithin(c: Chain, path: seq<Hash>, unvisited: set<Hash>)
    requires path != [] && path[|path| - 1] in c.delegations
  {
    && End(c, path).stkExp.Some?
    && (|| |PreviousOf(End(c, path))| != 32 || path[|path| - 1] !in unvisited
        || path[|path| - 1] in path[..|path| - 1])
  }

  lemma {:induction false} ResolvedHasRoot(c: Chain, h: Hash, unvisited: set<Hash>) returns (path: seq<Hash>)
    requires GetBTCDelWithParams(c, h, unvisited).Resolved?
    ensures Lineage(c, h, path) && Within(path, unvisited) && End(c, path).stkExp.None?
    decreases |unvisited|
  {
    var d := c.delegations[h];
    path := [h];
    if d.stkExp.Some? {
      path := ResolvedHasRoot(c, PreviousOf(d), unvisited - {h});
      LineageCons(c, h, path);
      path := [h] + path;
    }
  }

  lemma {:induction false} CrashHasBreak(c: Chain, h: Hash, unvisited: set<Hash>) returns (path: seq<Hash>)
    requires GetBTCDelWithParams(c, h, unvisited).Crash?
    ensures Lineage(c, h, path) && Within(path, unvisited) && BreaksWithin(c, path, unvisited)
    decreases |unvisited|
  {
    var d := c.delegations[h];
    path := [h];
    if |PreviousOf(d)| == 32 && h in unvisited {
      var rest := CrashHasBreak(c, PreviousOf(d), unvisited - {h});
      LineageCons(c, h, rest);
      path := [h] + rest;
      assert path[..|path| - 1] == [h] + rest[..|rest| - 1];
    }
  }

  lemma {:induction false} RootResolves(c: Chain, h: Hash, unvisited: set<Hash>, path: seq<Hash>)
    requires Lineage(c, h, path) && Within(path, unvisited) && End(c, path).stkExp.None?
    ensures GetBTCDelWithParams(c, h, unvisited).Resolved?
    decreases |path|
  {
    if |path| > 1 {
      LineageTail(c, h, path);
      assert forall i :: 0 <= i < |path| - 2 ==> path[1..][i] == path[..|path| - 1][i + 1];
      RootResolves(c, path[1], unvisited - {h}, path[1..]);
    }
  }

  lemma {:induction false} BreakCrashes(c: Chain, h: Hash, unvisited: set<Hash>, path: seq<Hash>)
    requires Lineage(c, h, path) && Within(path, unvisited) && BreaksWithin(c, path, unvisited)
    ensures GetBTCDelWithParams(c, h, unvisited).Crash?
    decreases |path|
  {
    if |path| > 1 {
      LineageTail(c, h, path);
      assert forall i :: 0 <= i < |path| - 2 ==> path[1..][i] == path[..|path| - 1][i + 1];
      BreakCrashes(c, path[1], unvisited - {h}, path[1..]);
    }
  }

  /** What the look-up gives, on the whole store. */
  lemma LookupMeans(c: Chain, h: Hash)
    ensures GetBTCDelWithParams(c, h, c.delegations.Keys).Resolved? <==> Rooted(c, h)
    ensures GetBTCDelWithParams(c, h, c.delegations.Keys).Crash? <==> Broken(c, h)
  {
    hide GetBTCDelWithParams, Lineage;
    var all := c.delegations.Keys;
    if GetBTCDelWithParams(c, h, all).Resolved? {
      var path := ResolvedHasRoot(c, h, all);
      assert RootPath(c, h, path);
    }
    if GetBTCDelWithParams(c, h, all).Crash? {
      var path := CrashHasBreak(c, h, all);
      LineageKnown(c, h, path);
      assert BreakPath(c, h, path);
    }
    if path :| RootPath(c, h, path) {
      LineageKnown(c, h, path);
      RootResolves(c, h, all, path);
    }
    if path :| BreakPath(c, h, path) {
      LineageKnown(c, h, path);
      BreakCrashes(c, h, all, path);
    }
  }

  lemma LineageKnown(c: Chain, h: Hash, path: seq<Hash>)
    requires Lineage(c, h, path)
    ensures path != [] && forall i :: 0 <= i < |path| ==> path[i] in c.delegations
  {
  }

  lemma ResolvedQuorums(c: Chain, h: Hash, unvisited: set<Hash>)
    requires GetBTCDelWithParams(c, h, unvisited).Resolved?
    ensures Known(c, h)
    ensures var d, params := c.delegations[h], GetBTCDelWithParams(c, h, unvisited);
            && params.quorum == c.quorums[d.paramsVersion]
            && (d.stkExp.Some? ==> && Known(c, PreviousOf(d))
                                   && params.quorumPreviousStk == c.quorums[c.delegations[PreviousOf(d)].paramsVersion])
  {
  }

  /** A delegation is active exactly if its lineage has a root and its fields say so; the check
      brings the node down exactly if the lineage is broken or there is no undelegation record. */
  lemma ActiveMeans(c: Chain, h: Hash)
    ensures IsBtcDelegationActive(c, h) == Some(true) <==> ActiveDelegation(c, h)
    ensures IsBtcDelegationActive(c, h) == None
            <==> Broken(c, h) || (Rooted(c, h) && h in c.delegations && c.delegations[h].undelegation.None?)
  {
    hide GetBTCDelWithParams, Rooted, Broken;
    LookupMeans(c, h);
    if Rooted(c, h) {
      ResolvedQuorums(c, h, c.delegations.Keys);
    }
  }

  // ----- judging one child -----

  /** A stake expansion that was unbonded without ever having been included. */
  predicate Poisoned(d: Delegation) {
    d.stkExp.Some? && !HasInclusionProof(d) && UnbondedEarly(d)
  }

  datatype Verdict = Skip | Abort | Queue(parent: Hash)

  function Judge(c: Chain, child: Delegation): (v: Verdict) {
    if !Poisoned(child) then Skip
    else
      var parent := child.stkExp.value.previousStakingTxHash;
      if |parent| != 32 then Abort
      else if parent !in c.delegations then Skip
      else if UnbondedEarly(c.delegations[parent]) then Skip
      else
        match IsBtcDelegationActive(c, parent)
        case None => Abort
        case Some(active) => if active then Queue(parent) else Skip
  }

  /** `child` expands `parent` and was unbonded without ever having been included. */
  predicate ChildOf(child: Delegation, parent: Hash) {
    && child.stkExp.Some? && child.stkExp.value.previousStakingTxHash == parent && |parent| == 32
    && (child.startHeight == 0 || child.endHeight == 0)
    && child.undelegation.Some? && child.undelegation.value.delegatorUnbondingInfo.Some?
  }

  /** `child` calls for the unbonding of `parent`. */
  ghost predicate Names(c: Chain, child: Delegation, parent: Hash) {
    ChildOf(child, parent) && ActiveDelegation(c, parent)
  }

  /** Judging `child` brings the upgrade down: its parent hash is malformed, or the parent is not
      unbonded and has a broken lineage or no undelegation record. */
  ghost predicate Malformed(c: Chain, child: Delegation) {
    && Poisoned(child)
    && var parent := PreviousOf(child);
       || |parent| != 32
       || (parent in c.delegations && !UnbondedEarly(c.delegations[parent])
           && (Broken(c, parent) || (Rooted(c, parent) && c.delegations[parent].undelegation.None?)))
  }

  lemma JudgeMeans(c: Chain, child: Delegation)
    ensures forall parent :: Judge(c, child) == Queue(parent) <==> Names(c, child, parent)
    ensures Judge(c, child) == Abort <==> Malformed(c, child)
  {
    hide IsBtcDelegationActive, Rooted, Broken;
    ActiveMeans(c, PreviousOf(child));
  }

  // ----- all children -----

  datatype Pair = Pair(parentHash: Hash, parent: Delegation, spendTx: Bytes)

  /** The parents to unbond, each with the first child that names it, in store order. */
  function ToRemediate(c: Chain, order: seq<Hash>): (r: seq<Pair>)
    requires forall h :: h in order ==> h in c.delegations
  {
    if order == [] then []
    else
      var last := |order| - 1;
      var r, child := ToRemediate(c, order[..last]), c.delegations[order[last]];
      match Judge(c, child)
      case Queue(parent) =>
        if parent in Parents(r) || parent !in c.delegations then r
        else r + [Pair(parent, c.delegations[parent], child.stakingTx)]
      case _ => r
  }

  function Parents(pairs: seq<Pair>): (r: seq<Hash>)
    ensures |r| == |pairs| && forall i :: 0 <= i < |r| ==> r[i] == pairs[i].parentHash
  {
    seq(|pairs|, i requires 0 <= i < |pairs| => pairs[i].parentHash)
  }

  ghost predicate Aborts(c: Chain, order: seq<Hash>)
    requires forall h :: h in order ==> h in c.delegations
  {
    exists i :: 0 <= i < |order| && Malformed(c, c.delegations[order[i]])
  }

  /** Some child on the way names this active, not yet unbonded parent. */
  ghost predicate Qualifies(c: Chain, order: seq<Hash>, parent: Hash)
    requires forall h :: h in order ==> h in c.delegations
  {
    exists i :: 0 <= i < |order| && Names(c, c.delegations[order[i]], parent)
  }

  lemma NamedIsActive(c: Chain, child: Delegation, parent: Hash)
    requires Names(c, child, parent)
    ensures parent in c.delegations && c.delegations[parent].undelegation.Some?
    ensures HasInclusionProof(c.delegations[parent]) && !UnbondedEarly(c.delegations[parent])
  {
  }

  /** `tx` is the staking transaction of the first child on the way that names `parent`. */
  ghost predicate SpentBy(c: Chain, order: seq<Hash>, parent: Hash, tx: Bytes)
    requires forall h :: h in order ==> h in c.delegations
  {
    exists i :: 0 <= i < |order| && Names(c, c.delegations[order[i]], parent)
                && tx == c.delegations[order[i]].stakingTx
                && forall j :: 0 <= j < i ==> !Names(c, c.delegations[order[j]], parent)
  }

  ghost predicate GoodPair(c: Chain, order: seq<Hash>, p: Pair)
    requires forall h :: h in order ==> h in c.delegations
  {
    && p.parentHash in c.delegations && p.parent == c.delegations[p.parentHash]
    && SpentBy(c, order, p.parentHash, p.spendTx)
  }

  lemma SpentBySnoc(c: Chain, order: seq<Hash>, parent: Hash, tx: Bytes)
    requires order != [] && forall h :: h in order ==> h in c.delegations
    ensures SpentBy(c, order[..|order| - 1], parent, tx) ==> SpentBy(c, order, parent, tx)
    ensures var child := c.delegations[order[|order| - 1]];
            (!Qualifies(c, order[..|order| - 1], parent) && Names(c, child, parent) && tx == child.stakingTx)
            ==> SpentBy(c, order, parent, tx)
  {
    hide Names;
    var last := |order| - 1;
    var front := order[..last];
    if SpentBy(c, front, parent, tx) {
      var i :| 0 <= i < |front| && Names(c, c.delegations[front[i]], parent)
               && tx == c.delegations[front[i]].stakingTx
               && forall j :: 0 <= j < i ==> !Names(c, c.delegations[front[j]], parent);
      assert forall j :: 0 <= j < i ==> !Names(c, c.delegations[order[j]], parent) by {
        forall j | 0 <= j < i ensures !Names(c, c.delegations[order[j]], parent) { assert front[j] == order[j]; }
      }
      assert order[i] == front[i];
    }
    if !Qualifies(c, front, parent) {
      forall j | 0 <= j < last
        ensures !Names(c, c.delegations[order[j]], parent)
      {
        assert front[j] == order[j];
      }
    }
  }

  /** Every qualifying parent is queued exactly once, as it is in the store, with the
      transaction of the first child that names it. */
  lemma {:induction false} QueuedOnce(c: Chain, order: seq<Hash>)
    requires forall h :: h in order ==> h in c.delegations
    ensures var r := ToRemediate(c, order);
            && (forall p :: p in Parents(r) <==> Qualifies(c, order, p))
            && (forall i, j :: 0 <= i < j < |r| ==> r[i].parentHash != r[j].parentHash)
            && (forall i :: 0 <= i < |r| ==> GoodPair(c, order, r[i]))
            && (forall i, j :: 0 <= i < j < |r| ==> NamedBefore(c, order, r[i].parentHash, r[j].parentHash))
  {
    hide Judge, SpentBy, Qualifies, Names, NamedBefore;
    if order == [] {
      assert forall p :: !Qualifies(c, order, p) by { NoneQualifies(c); }
    } else {
      var last := |order| - 1;
      var front, child := order[..last], c.delegations[order[last]];
      var r, r' := ToRemediate(c, front), ToRemediate(c, order);
      QueuedOnce(c, front);
      forall p
        ensures Qualifies(c, order, p) <==> Qualifies(c, front, p) || Names(c, child, p)
      {
        QualifiesSnoc(c, order, p);
      }
      JudgeMeans(c, child);
      if Judge(c, child).Queue? {
        NamedIsActive(c, child, Judge(c, child).parent);
      }
      ParentsSnoc(r, r');
      assert forall i :: 0 <= i < |r| ==> r[i].parentHash == Parents(r)[i] && Parents(r)[i] in Parents(r);
      forall i | 0 <= i < |r'|
        ensures GoodPair(c, order, r'[i])
      {
        SpentBySnoc(c, order, r'[i].parentHash, r'[i].spendTx);
        if i < |r| {
          assert r'[i] == r[i] && GoodPair(c, front, r[i]);
        }
      }
      forall i, j | 0 <= i < j < |r'|
        ensures NamedBefore(c, order, r'[i].parentHash, r'[j].parentHash)
      {
        NamedBeforeSnoc(c, order, r'[i].parentHash, r'[j].parentHash);
        assert Parents(r')[i] == r'[i].parentHash && Parents(r')[j] == r'[j].parentHash;
      }
    }
  }

  /** Some child names `p` before any child names `q`. */
  ghost predicate NamedBefore(c: Chain, order: seq<Hash>, p: Hash, q: Hash)
    requires forall h :: h in order ==> h in c.delegations
  {
    exists i :: 0 <= i < |order| && Names(c, c.delegations[order[i]], p)
                && forall j :: 0 <= j <= i ==> !Names(c, c.delegations[order[j]], q)
  }

  lemma NamedBeforeSnoc(c: Chain, order: seq<Hash>, p: Hash, q: Hash)
    requires order != [] && forall h :: h in order ==> h in c.delegations
    ensures NamedBefore(c, order[..|order| - 1], p, q) ==> NamedBefore(c, order, p, q)
    ensures Qualifies(c, order[..|order| - 1], p) && !Qualifies(c, order[..|order| - 1], q) ==> NamedBefore(c, order, p, q)
  {
    hide Names;
    var front := order[..|order| - 1];
    assert forall i :: 0 <= i < |front| ==> front[i] == order[i];
    if NamedBefore(c, front, p, q) {
      var i :| 0 <= i < |front| && Names(c, c.delegations[front[i]], p)
               && forall j :: 0 <= j <= i ==> !Names(c, c.delegations[front[j]], q);
      assert Names(c, c.delegations[order[i]], p);
      assert forall j :: 0 <= j <= i ==> !Names(c, c.delegations[order[j]], q) by {
        forall j | 0 <= j <= i ensures !Names(c, c.delegations[order[j]], q) { assert front[j] == order[j]; }
      }
    }
    if Qualifies(c, front, p) && !Qualifies(c, front, q) {
      var i :| 0 <= i < |front| && Names(c, c.delegations[front[i]], p);
      assert Names(c, c.delegations[order[i]], p);
      assert forall j :: 0 <= j <= i ==> !Names(c, c.delegations[order[j]], q) by {
        forall j | 0 <= j <= i ensures !Names(c, c.delegations[order[j]], q) { assert front[j] == order[j]; }
      }
    }
  }

  lemma NoneQualifies(c: Chain)
    ensures forall p :: !Qualifies(c, [], p)
  {
  }

  lemma ParentsSnoc(r: seq<Pair>, r': seq<Pair>)
    requires r <= r' && |r'| <= |r| + 1
    ensures |r'| == |r| + 1 ==> Parents(r') == Parents(r) + [r'[|r|].parentHash]
  {
  }

  lemma QualifiesSnoc(c: Chain, order: seq<Hash>, p: Hash)
    requires order != [] && forall h :: h in order ==> h in c.delegations
    ensures Qualifies(c, order, p)
            <==> Qualifies(c, order[..|order| - 1], p) || Names(c, c.delegations[order[|order| - 1]], p)
  {
    hide Names;
    var front := order[..|order| - 1];
    if Qualifies(c, front, p) {
      var i :| 0 <= i < |front| && Names(c, c.delegations[front[i]], p);
      assert Names(c, c.delegations[order[i]], p);
    }
  }

  // ----- the store after the remediation -----

  function WithUnbonding(d: Delegation, spendTx: Bytes): (d': Delegation)
    requires d.undelegation.Some?
  {
    d.(undelegation := Some(d.undelegation.value.(delegatorUnbondingInfo := Some(spendTx))))
  }

  /** `d'` is `d` with `tx` as the transaction that unbonded it. */
  predicate UnbondedWith(d: Delegation, tx: Bytes, d': Delegation) {
    && d.undelegation.Some?
    && d'.undelegation
       == Some(Undelegation(Some(tx), d.undelegation.value.slashingSigs, d.undelegation.value.unbondingSigs))
    && d' == d.(undelegation := d'.undelegation)
  }

  lemma WithUnbondingMeans(d: Delegation, tx: Bytes)
    requires d.undelegation.Some?
    ensures UnbondedWith(d, tx, WithUnbonding(d, tx))
  {
  }

  /** Same delegations, except that those of qualifying parents now carry as unbonding info the
      transaction of the first child that names them. */
  ghost predicate Remediated(c: Chain, order: seq<Hash>, c': Chain)
    requires forall h :: h in order ==> h in c.delegations
  {
    && c'.quorums == c.quorums && c'.btcTip == c.btcTip
    && c'.delegations.Keys == c.delegations.Keys
    && forall h :: h in c.delegations ==> RemediatedOne(c, order, h, c'.delegations[h])
  }

  ghost predicate RemediatedOne(c: Chain, order: seq<Hash>, h: Hash, d: Delegation)
    requires h in c.delegations && forall k :: k in order ==> k in c.delegations
  {
    if Qualifies(c, order, h)
    then exists tx :: SpentBy(c, order, h, tx) && UnbondedWith(c.delegations[h], tx, d)
    else d == c.delegations[h]
  }

  /** What the remediation leaves alone in every delegation. */
  lemma RemediatedKeeps(c: Chain, order: seq<Hash>, h: Hash, d: Delegation)
    requires h in c.delegations && (forall k :: k in order ==> k in c.delegations) && RemediatedOne(c, order, h, d)
    ensures d.stkExp == c.delegations[h].stkExp && d.paramsVersion == c.delegations[h].paramsVersion
    ensures HasInclusionProof(d) <==> HasInclusionProof(c.delegations[h])
    ensures Qualifies(c, order, h) ==> UnbondedEarly(d) && HasInclusionProof(d)
    ensures !Qualifies(c, order, h) ==> d == c.delegations[h]
  {
    hide SpentBy, Names;
    if Qualifies(c, order, h) {
      var i :| 0 <= i < |order| && Names(c, c.delegations[order[i]], h);
      NamedIsActive(c, c.delegations[order[i]], h);
    }
  }

  lemma {:induction false} SameParams(c: Chain, order: seq<Hash>, c': Chain, h: Hash, unvisited: set<Hash>)
    requires (forall k :: k in order ==> k in c.delegations) && Remediated(c, order, c')
    ensures GetBTCDelWithParams(c', h, unvisited) == GetBTCDelWithParams(c, h, unvisited)
    decreases |unvisited|
  {
    hide RemediatedOne, Qualifies;
    if h in c.delegations {
      RemediatedKeeps(c, order, h, c'.delegations[h]);
      if h in unvisited && c.delegations[h].stkExp.Some? {
        SameParams(c, order, c', c.delegations[h].stkExp.value.previousStakingTxHash, unvisited - {h});
      }
    }
  }

  /** `order` covers the whole store. */
  ghost predicate Covers(order: seq<Hash>, c: Chain) {
    forall h :: h in order <==> h in c.delegations
  }

  /** Afterwards no child that was unbonded before its inclusion has an active parent. */
  lemma NoActiveParentLeft(c: Chain, order: seq<Hash>, c': Chain, child: Hash)
    requires Covers(order, c) && !Aborts(c, order) && Remediated(c, order, c')
    requires child in c'.delegations && Poisoned(c'.delegations[child])
    ensures |c'.delegations[child].stkExp.value.previousStakingTxHash| == 32
    ensures !ActiveDelegation(c', c'.delegations[child].stkExp.value.previousStakingTxHash)
  {
    hide RemediatedOne, GetBTCDelWithParams, Rooted, Broken;
    var d' := c'.delegations[child];
    var parent := PreviousOf(d');
    RemediatedKeeps(c, order, child, d');
    var i :| 0 <= i < |order| && order[i] == child;
    assert d' == c.delegations[child];
    assert !Malformed(c, c.delegations[order[i]]);
    if Names(c, c.delegations[order[i]], parent) {
      RemediatedKeeps(c, order, parent, c'.delegations[parent]);
    } else {
      NotActivated(c, order, c', parent);
    }
  }

  /** The remediation activates nothing. */
  lemma NotActivated(c: Chain, order: seq<Hash>, c': Chain, h: Hash)
    requires (forall k :: k in order ==> k in c.delegations) && Remediated(c, order, c')
    requires !ActiveDelegation(c, h)
    ensures !ActiveDelegation(c', h)
  {
    hide RemediatedOne, GetBTCDelWithParams, Rooted, Qualifies;
    SameParams(c, order, c', h, c.delegations.Keys);
    LookupMeans(c, h);
    LookupMeans(c', h);
    if h in c.delegations {
      RemediatedKeeps(c, order, h, c'.delegations[h]);
      var previous := PreviousOf(c'.delegations[h]);
      if previous in c.delegations {
        RemediatedKeeps(c, order, previous, c'.delegations[previous]);
      }
    }
  }

  /** A second run finds nothing to do: no parent qualifies and nothing aborts. */
  lemma SecondRunFindsNothing(c: Chain, order: seq<Hash>, c': Chain)
    requires Covers(order, c) && !Aborts(c, order) && Remediated(c, order, c')
    ensures Covers(order, c') && !Aborts(c', order) && ToRemediate(c', order) == []
  {
    hide Malformed, Names, RemediatedOne, ToRemediate;
    forall i | 0 <= i < |order|
      ensures !Malformed(c', c'.delegations[order[i]])
      ensures forall parent :: !Names(c', c'.delegations[order[i]], parent)
    {
      JudgedAgain(c, order, c', i);
    }
    QueuedOnce(c', order);
    FirstParent(ToRemediate(c', order));
  }

  lemma FirstParent(pairs: seq<Pair>)
    ensures pairs != [] ==> pairs[0].parentHash in Parents(pairs)
  {
    if pairs != [] {
      assert Parents(pairs)[0] == pairs[0].parentHash;
    }
  }

  lemma JudgedAgain(c: Chain, order: seq<Hash>, c': Chain, i: nat)
    requires Covers(order, c) && !Aborts(c, order) && Remediated(c, order, c') && i < |order|
    ensures order[i] in c'.delegations && !Malformed(c', c'.delegations[order[i]])
    ensures forall parent :: !Names(c', c'.delegations[order[i]], parent)
  {
    hide RemediatedOne, GetBTCDelWithParams, Rooted, Broken, ActiveFields;
    var child := order[i];
    assert child in order;
    if Poisoned(c'.delegations[child]) {
      NoActiveParentLeft(c, order, c', child);
      var parent := PreviousOf(c'.delegations[child]);
      RemediatedKeeps(c, order, child, c'.delegations[child]);
      if parent in c.delegations {
        RemediatedKeeps(c, order, parent, c'.delegations[parent]);
        SameParams(c, order, c', parent, c.delegations.Keys);
        LookupMeans(c, parent);
        LookupMeans(c', parent);
        assert !Malformed(c, c.delegations[order[i]]);
      }
    }
  }

  // ----- the upgrade -----

  class Keeper {
    var delegations: map<Hash, Delegation>
    const quorums: map<nat, nat>
    const btcTip: uint32
    const txHash: Bytes -> Hash
    var unbondedEvents: seq<Hash>

    constructor (delegations: map<Hash, Delegation>, quorums: map<nat, nat>, btcTip: uint32, txHash: Bytes -> Hash)
      ensures this.delegations == delegations && this.quorums == quorums && this.btcTip == btcTip
      ensures this.txHash == txHash && unbondedEvents == []
    {
      this.delegations, this.quorums, this.btcTip, this.txHash := delegations, quorums, btcTip, txHash;
      unbondedEvents := [];
    }

    function View(): (c: Chain)
      reads this
    {
      Chain(delegations, quorums, btcTip)
    }

    /** Delegations are stored under the hash of their staking transaction. */
    ghost predicate Valid()
      reads this
    {
      forall h :: h in delegations ==> txHash(delegations[h].stakingTx) == h
    }

    /** Writes the given copy of the delegation back, and reports it if it was included. */
    method BtcUndelegate(btcDel: Delegation, spendTx: Bytes)
      requires Valid() && btcDel.undelegation.Some?
      modifies this
      ensures Valid()
      ensures delegations == old(delegations)[txHash(btcDel.stakingTx) := WithUnbonding(btcDel, spendTx)]
      ensures unbondedEvents == old(unbondedEvents) + if HasInclusionProof(btcDel) then [txHash(btcDel.stakingTx)] else []
    {
      var undel := btcDel.undelegation.value;
      var d := btcDel.(undelegation := Some(undel.(delegatorUnbondingInfo := Some(spendTx))));
      delegations := delegations[txHash(d.stakingTx) := d];
      if !HasInclusionProof(d) {
        return;
      }
      unbondedEvents := unbondedEvents + [txHash(d.stakingTx)];
    }
  }

  /** First pass: decides over every delegation without changing any. */
  method Scan(k: Keeper, order: seq<Hash>) returns (ok: bool, toRemediate: seq<Pair>)
    requires Covers(order, k.View())
    ensures ok <==> !Aborts(k.View(), order)
    ensures ok ==> toRemediate == ToRemediate(k.View(), order)
  {
    hide IsBtcDelegationActive, Malformed, Names;
    var c := k.View();
    toRemediate := [];
    var seenParent: set<Hash> := {};
    for i := 0 to |order|
      invariant forall j :: 0 <= j < i ==> !Malformed(c, c.delegations[order[j]])
      invariant toRemediate == ToRemediate(c, order[..i])
      invariant forall p :: p in seenParent <==> p in Parents(toRemediate)
    {
      assert order[..i + 1][..i] == order[..i];
      assert order[i] in order;
      var child := c.delegations[order[i]];
      JudgeMeans(c, child);
      if child.stkExp.None? {
        continue;
      }
      if HasInclusionProof(child) {
        continue;
      }
      if child.undelegation.None? || child.undelegation.value.delegatorUnbondingInfo.None? {
        continue;
      }
      var parentHash := child.stkExp.value.previousStakingTxHash;
      if |parentHash| != 32 {
        return false, [];
      }
      if parentHash !in c.delegations {
        continue;
      }
      var parent := c.delegations[parentHash];
      if parent.undelegation.Some? && parent.undelegation.value.delegatorUnbondingInfo.Some? {
        continue;
      }
      var parentActive := IsBtcDelegationActive(c, parentHash);
      if parentActive.None? {
        return false, [];
      }
      if !parentActive.value {
        continue;
      }
      if parentHash in seenParent {
        continue;
      }
      seenParent := seenParent + {parentHash};
      ParentsSnoc(toRemediate, toRemediate + [Pair(parentHash, parent, child.stakingTx)]);
      toRemediate := toRemediate + [Pair(parentHash, parent, child.stakingTx)];
    }
    assert order[..|order|] == order;
    ok := true;
  }

  /** The queued copies written back, in the order they were queued. */
  function Written(delegations: map<Hash, Delegation>, pairs: seq<Pair>): (r: map<Hash, Delegation>)
    requires forall i :: 0 <= i < |pairs| ==> pairs[i].parent.undelegation.Some?
  {
    if pairs == [] then delegations
    else
      var last := |pairs| - 1;
      Written(delegations, pairs[..last])[pairs[last].parentHash := WithUnbonding(pairs[last].parent, pairs[last].spendTx)]
  }

  lemma {:induction false} WrittenAt(delegations: map<Hash, Delegation>, pairs: seq<Pair>, h: Hash)
    requires forall i :: 0 <= i < |pairs| ==> pairs[i].parent.undelegation.Some? && pairs[i].parentHash in delegations
    requires forall i, j :: 0 <= i < j < |pairs| ==> pairs[i].parentHash != pairs[j].parentHash
    ensures Written(delegations, pairs).Keys == delegations.Keys
    ensures forall i :: 0 <= i < |pairs| && pairs[i].parentHash == h ==>
              Written(delegations, pairs)[h] == WithUnbonding(pairs[i].parent, pairs[i].spendTx)
    ensures h in delegations && h !in Parents(pairs) ==> Written(delegations, pairs)[h] == delegations[h]
  {
    hide WithUnbonding;
    if pairs != [] {
      var last := |pairs| - 1;
      WrittenAt(delegations, pairs[..last], h);
      ParentsSnoc(pairs[..last], pairs);
    }
  }

  /** Second pass. */
  method UnbondQueued(k: Keeper, pairs: seq<Pair>) returns (remediated: seq<Hash>)
    requires k.Valid()
    requires forall i :: 0 <= i < |pairs| ==>
               && k.txHash(pairs[i].parent.stakingTx) == pairs[i].parentHash
               && pairs[i].parent.undelegation.Some? && HasInclusionProof(pairs[i].parent)
    modifies k
    ensures k.Valid() && k.delegations == Written(old(k.delegations), pairs)
    ensures remediated == Parents(pairs) && k.unbondedEvents == old(k.unbondedEvents) + remediated
  {
    hide WithUnbonding;
    remediated := [];
    for i := 0 to |pairs|
      invariant k.Valid() && k.delegations == Written(old(k.delegations), pairs[..i])
      invariant remediated == Parents(pairs[..i]) && k.unbondedEvents == old(k.unbondedEvents) + remediated
    {
      var p := pairs[i];
      k.BtcUndelegate(p.parent, p.spendTx);
      remediated := remediated + [p.parentHash];
      assert pairs[..i + 1][..i] == pairs[..i];
      ParentsSnoc(pairs[..i], pairs[..i + 1]);
    }
    assert pairs[..|pairs|] == pairs;
  }

  /** Every active parent of a child that was unbonded before its inclusion is unbonded exactly
      once, with the first such child's transaction; nothing else changes. If a child or a chain
      of expansions is malformed, nothing changes at all. */
  method RemediatePoisonedStakeExpansions(k: Keeper, order: seq<Hash>) returns (ok: bool, remediated: seq<Hash>)
    requires k.Valid() && Covers(order, k.View())
    modifies k
    ensures k.Valid()
    ensures ok <==> !Aborts(old(k.View()), order)
    ensures ok ==> Remediated(old(k.View()), order, k.View())
    ensures ok ==> forall p :: p in remediated <==> Qualifies(old(k.View()), order, p)
    ensures ok ==> forall i, j :: 0 <= i < j < |remediated| ==>
                     remediated[i] != remediated[j] && NamedBefore(old(k.View()), order, remediated[i], remediated[j])
    ensures k.unbondedEvents == old(k.unbondedEvents) + remediated
    ensures !ok ==> k.delegations == old(k.delegations) && remediated == []
  {
    hide ToRemediate, Qualifies, SpentBy, WithUnbonding, Names, NamedBefore, Malformed;
    var toRemediate;
    ok, toRemediate := Scan(k, order);
    remediated := [];
    if !ok {
      return;
    }
    ghost var c := k.View();
    QueuedOnce(c, order);
    forall i | 0 <= i < |toRemediate|
      ensures toRemediate[i].parent.undelegation.Some? && HasInclusionProof(toRemediate[i].parent)
    {
      assert GoodPair(c, order, toRemediate[i]);
      SpentIsActive(c, order, toRemediate[i].parentHash, toRemediate[i].spendTx);
    }
    WrittenAt(c.delegations, toRemediate, []);
    remediated := UnbondQueued(k, toRemediate);
    forall h | h in c.delegations
      ensures RemediatedOne(c, order, h, Written(c.delegations, toRemediate)[h])
    {
      WrittenIsRemediated(c, order, toRemediate, h);
    }
  }

  lemma WrittenIsRemediated(c: Chain, order: seq<Hash>, pairs: seq<Pair>, h: Hash)
    requires (forall k :: k in order ==> k in c.delegations) && h in c.delegations && pairs == ToRemediate(c, order)
    requires forall i :: 0 <= i < |pairs| ==> pairs[i].parent.undelegation.Some? && pairs[i].parentHash in c.delegations
    ensures h in Written(c.delegations, pairs) && RemediatedOne(c, order, h, Written(c.delegations, pairs)[h])
  {
    hide ToRemediate, Qualifies, SpentBy, WithUnbonding, Names, NamedBefore;
    QueuedOnce(c, order);
    WrittenAt(c.delegations, pairs, h);
    if h in Parents(pairs) {
      var i :| 0 <= i < |pairs| && Parents(pairs)[i] == h;
      assert GoodPair(c, order, pairs[i]);
      WithUnbondingMeans(pairs[i].parent, pairs[i].spendTx);
    }
  }

  lemma SpentIsActive(c: Chain, order: seq<Hash>, parent: Hash, tx: Bytes)
    requires (forall h :: h in order ==> h in c.delegations) && SpentBy(c, order, parent, tx)
    ensures parent in c.delegations && c.delegations[parent].undelegation.Some? && HasInclusionProof(c.delegations[parent])
  {
    var i :| 0 <= i < |order| && Names(c, c.delegations[order[i]], parent);
    hide Names;
    NamedIsActive(c, c.delegations[order[i]], parent);
  }
}
