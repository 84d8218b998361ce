/** Taproot outputs that commit to the staking scripts (btcstaking/types.go). */
module Taproot {
  import opened Prelude
  import opened Curve
  import opened Keys
  import opened StakingScripts

  /** The parts of Taproot that live in btcd: leaf hashes, and the output script and control
      blocks of a tree over the unspendable internal key. */
  datatype Taproot = Taproot(
    leafHash: Bytes -> Bytes,
    outputScript: seq<Bytes> -> Bytes,
    controlBlock: (seq<Bytes>, nat) -> Bytes,
    spends: (Bytes, Bytes, Bytes) -> bool   // BIP341: output script, revealed script, control block
  ) {
    /** Script `script` with control block `block` is a leaf of the tree over `scripts`. */
    ghost predicate InTree(scripts: seq<Bytes>, script: Bytes, block: Bytes) {
      exists i :: 0 <= i < |scripts| && script == scripts[i] && block == controlBlock(scripts, i)
    }

    /** Leaf hashes do not collide, and an output is spent by the leaves of its own tree only. */
    ghost predicate Valid() {
      && (forall a: Bytes, b: Bytes :: leafHash(a) == leafHash(b) ==> a == b)
      && (forall s: seq<Bytes>, script: Bytes, block: Bytes ::
            spends(outputScript(s), script, block) <==> InTree(s, script, block))
    }
  }

  datatype Error = EmptyScript | DuplicateScript | ScriptNotFound | Scripts(error: StakingScripts.Error)

  datatype TxOut = TxOut(value: int, pkScript: Bytes)

  datatype SpendInfo = SpendInfo(controlBlock: Bytes, revealedLeaf: Bytes)

  /** A script tree: its leaves in order, and the position of each leaf hash. */
  datatype ScriptHolder = ScriptHolder(leaves: seq<Bytes>, index: map<Bytes, nat>)

  /** The tree over `scripts`: every leaf hash leads to its own script. */
  ghost predicate IsTreeOf(tp: Taproot, sh: ScriptHolder, scripts: seq<Bytes>) {
    && sh.leaves == scripts
    && (forall h :: h in sh.index ==> sh.index[h] < |scripts| && tp.leafHash(scripts[sh.index[h]]) == h)
    && (forall i :: 0 <= i < |scripts| ==> tp.leafHash(scripts[i]) in sh.index)
  }

  function LeafHashes(tp: Taproot, scripts: seq<Bytes>): (r: seq<Bytes>)
    ensures |r| == |scripts|
    ensures forall i :: 0 <= i < |r| ==> r[i] == tp.leafHash(scripts[i])
  {
    seq(|scripts|, i requires 0 <= i < |scripts| => tp.leafHash(scripts[i]))
  }

  method NewTaprootScriptHolder(tp: Taproot, scripts: seq<Bytes>) returns (res: Result<ScriptHolder, Error>)
    ensures res.Ok? <==>
              && (forall i :: 0 <= i < |scripts| ==> scripts[i] != [])
              && Distinct(LeafHashes(tp, scripts))
    ensures res.Ok? ==> IsTreeOf(tp, res.value, scripts)
  {
    ghost var hashes := LeafHashes(tp, scripts);
    var createdLeafs: map<Bytes, nat> := map[];
    for i := 0 to |scripts|
      invariant forall j :: 0 <= j < i ==> scripts[j] != []
      invariant forall h :: h in createdLeafs ==> createdLeafs[h] < i && hashes[createdLeafs[h]] == h
      invariant forall j :: 0 <= j < i ==> hashes[j] in createdLeafs && createdLeafs[hashes[j]] == j
    {
      if |scripts[i]| == 0 {
        return Err(EmptyScript);
      }
      var leafHash := tp.leafHash(scripts[i]);
      if leafHash in createdLeafs {
        assert hashes[createdLeafs[leafHash]] == hashes[i];
        return Err(DuplicateScript);
      }
      createdLeafs := createdLeafs[leafHash := i];
    }
    return Ok(ScriptHolder(scripts, createdLeafs));
  }

  function ScriptSpendInfoByName(tp: Taproot, sh: ScriptHolder, leafHash: Bytes): (res: Result<SpendInfo, Error>) {
    if leafHash !in sh.index || sh.index[leafHash] >= |sh.leaves| then Err(ScriptNotFound)
    else Ok(SpendInfo(tp.controlBlock(sh.leaves, sh.index[leafHash]), sh.leaves[sh.index[leafHash]]))
  }

  datatype StakingInfo = StakingInfo(
    output: TxOut,
    scriptHolder: ScriptHolder,
    timeLockLeaf: Bytes,
    unbondingLeaf: Bytes,
    slashingLeaf: Bytes)

  datatype UnbondingInfo = UnbondingInfo(
    output: TxOut,
    scriptHolder: ScriptHolder,
    timeLockLeaf: Bytes,
    slashingLeaf: Bytes)

  /** The output script of a stake. */
  ghost function StakingPkScript(tp: Taproot, c: Group, staker: Point, fpKeys: seq<Point>, covenantKeys: seq<Point>,
                                 quorum: uint32, stakingTime: uint16): (res: Result<Bytes, StakingScripts.Error>)
    requires c.Valid()
  {
    match ScriptPaths(c, staker, fpKeys, covenantKeys, quorum, stakingTime)
    case Err(e) => Err(e)
    case Ok(p) => Ok(tp.outputScript([p.timeLock, p.unbonding, p.slashing]))
  }

  /** Looking up the leaf of `script` reveals `script`, with a control block that spends `output`. */
  predicate Opens(tp: Taproot, sh: ScriptHolder, leafHash: Bytes, script: Bytes, output: Bytes) {
    var si := ScriptSpendInfoByName(tp, sh, leafHash);
    si.Ok? && si.value.revealedLeaf == script && tp.spends(output, script, si.value.controlBlock)
  }

  /** No other script spends `output`. */
  ghost predicate OpenOnlyTo(tp: Taproot, output: Bytes, scripts: set<Bytes>) {
    forall script: Bytes, block: Bytes :: tp.spends(output, script, block) ==> script in scripts
  }

  /** Succeeds whenever the scripts can be compiled: they never collide in the tree, the look-ups
      of all three paths spend the output, and nothing else does. */
  method BuildStakingInfo(tp: Taproot, c: Group, staker: Point, fpKeys: seq<Point>, covenantKeys: seq<Point>,
                          quorum: uint32, stakingTime: uint16, stakingAmount: int)
    returns (res: Result<StakingInfo, Error>)
    requires tp.Valid() && c.Valid()
    ensures var paths := ScriptPaths(c, staker, fpKeys, covenantKeys, quorum, stakingTime);
            match paths
            case Err(e) => res == Err(Scripts(e))
            case Ok(p) =>
              && res.Ok?
              && Ok(res.value.output.pkScript)
                 == StakingPkScript(tp, c, staker, fpKeys, covenantKeys, quorum, stakingTime)
              && res.value.output == TxOut(stakingAmount, tp.outputScript([p.timeLock, p.unbonding, p.slashing]))
              && Opens(tp, res.value.scriptHolder, res.value.timeLockLeaf, p.timeLock, res.value.output.pkScript)
              && Opens(tp, res.value.scriptHolder, res.value.unbondingLeaf, p.unbonding, res.value.output.pkScript)
              && Opens(tp, res.value.scriptHolder, res.value.slashingLeaf, p.slashing, res.value.output.pkScript)
              && OpenOnlyTo(tp, res.value.output.pkScript, {p.timeLock, p.unbonding, p.slashing})
  {
    var paths := NewBabylonScriptPaths(c, staker, fpKeys, covenantKeys, quorum, stakingTime);
    if paths.Err? {
      return Err(Scripts(paths.error));
    }
    hide ScriptPaths, Opens, OpenOnlyTo, IsTreeOf, Taproot.Valid, Group.Valid;
    ScriptPathsDiffer(c, staker, fpKeys, covenantKeys, quorum, stakingTime);
    var p := paths.value;
    var scripts := [p.timeLock, p.unbonding, p.slashing];
    var sh := NewTaprootScriptHolder(tp, scripts);
    LeavesDiffer(tp, scripts);
    var out := TxOut(stakingAmount, tp.outputScript(sh.value.leaves));
    StakingTree(tp, sh.value, p);
    return Ok(StakingInfo(out, sh.value, tp.leafHash(p.timeLock), tp.leafHash(p.unbonding), tp.leafHash(p.slashing)));
  }

  method BuildUnbondingInfo(tp: Taproot, c: Group, staker: Point, fpKeys: seq<Point>, covenantKeys: seq<Point>,
                            quorum: uint32, unbondingTime: uint16, unbondingAmount: int)
    returns (res: Result<UnbondingInfo, Error>)
    requires tp.Valid() && c.Valid()
    ensures var paths := ScriptPaths(c, staker, fpKeys, covenantKeys, quorum, unbondingTime);
            match paths
            case Err(e) => res == Err(Scripts(e))
            case Ok(p) =>
              && res.Ok?
              && res.value.output == TxOut(unbondingAmount, tp.outputScript([p.timeLock, p.slashing]))
              && Opens(tp, res.value.scriptHolder, res.value.timeLockLeaf, p.timeLock, res.value.output.pkScript)
              && Opens(tp, res.value.scriptHolder, res.value.slashingLeaf, p.slashing, res.value.output.pkScript)
              && OpenOnlyTo(tp, res.value.output.pkScript, {p.timeLock, p.slashing})
  {
    var paths := NewBabylonScriptPaths(c, staker, fpKeys, covenantKeys, quorum, unbondingTime);
    if paths.Err? {
      return Err(Scripts(paths.error));
    }
    hide ScriptPaths, Opens, OpenOnlyTo, IsTreeOf, Taproot.Valid, Group.Valid;
    ScriptPathsDiffer(c, staker, fpKeys, covenantKeys, quorum, unbondingTime);
    var p := paths.value;
    var scripts := [p.timeLock, p.slashing];
    var sh := NewTaprootScriptHolder(tp, scripts);
    LeavesDiffer(tp, scripts);
    var out := TxOut(unbondingAmount, tp.outputScript(sh.value.leaves));
    UnbondingTree(tp, sh.value, p);
    return Ok(UnbondingInfo(out, sh.value, tp.leafHash(p.timeLock), tp.leafHash(p.slashing)));
  }

  lemma LeavesDiffer(tp: Taproot, scripts: seq<Bytes>)
    requires tp.Valid() && Distinct(scripts)
    ensures Distinct(LeafHashes(tp, scripts))
  {
  }

  /** Looking up the leaf hash of any script of a tree gives what spends the output of the tree. */
  lemma LookupOpens(tp: Taproot, sh: ScriptHolder, scripts: seq<Bytes>, i: nat)
    requires tp.Valid() && IsTreeOf(tp, sh, scripts) && i < |scripts|
    ensures Opens(tp, sh, tp.leafHash(scripts[i]), scripts[i], tp.outputScript(scripts))
  {
    var at := sh.index[tp.leafHash(scripts[i])];
    assert scripts[at] == scripts[i];
    assert tp.InTree(scripts, scripts[i], tp.controlBlock(scripts, at));
  }

  lemma StakingTree(tp: Taproot, sh: ScriptHolder, p: Paths)
    requires tp.Valid() && IsTreeOf(tp, sh, [p.timeLock, p.unbonding, p.slashing])
    ensures sh.leaves == [p.timeLock, p.unbonding, p.slashing]
    ensures var output := tp.outputScript(sh.leaves);
            && Opens(tp, sh, tp.leafHash(p.timeLock), p.timeLock, output)
            && Opens(tp, sh, tp.leafHash(p.unbonding), p.unbonding, output)
            && Opens(tp, sh, tp.leafHash(p.slashing), p.slashing, output)
            && OpenOnlyTo(tp, output, {p.timeLock, p.unbonding, p.slashing})
  {
    hide Taproot.Valid, Opens, OpenOnlyTo;
    var scripts := [p.timeLock, p.unbonding, p.slashing];
    LookupOpens(tp, sh, scripts, 0);
    LookupOpens(tp, sh, scripts, 1);
    LookupOpens(tp, sh, scripts, 2);
    TreeOnly(tp, scripts, {p.timeLock, p.unbonding, p.slashing});
  }

  lemma UnbondingTree(tp: Taproot, sh: ScriptHolder, p: Paths)
    requires tp.Valid() && IsTreeOf(tp, sh, [p.timeLock, p.slashing])
    ensures sh.leaves == [p.timeLock, p.slashing]
    ensures var output := tp.outputScript(sh.leaves);
            && Opens(tp, sh, tp.leafHash(p.timeLock), p.timeLock, output)
            && Opens(tp, sh, tp.leafHash(p.slashing), p.slashing, output)
            && OpenOnlyTo(tp, output, {p.timeLock, p.slashing})
  {
    hide Taproot.Valid, Opens, OpenOnlyTo;
    var scripts := [p.timeLock, p.slashing];
    LookupOpens(tp, sh, scripts, 0);
    LookupOpens(tp, sh, scripts, 1);
    TreeOnly(tp, scripts, {p.timeLock, p.slashing});
  }

  lemma TreeOnly(tp: Taproot, scripts: seq<Bytes>, members: set<Bytes>)
    requires tp.Valid() && forall i :: 0 <= i < |scripts| ==> scripts[i] in members
    ensures OpenOnlyTo(tp, tp.outputScript(scripts), members)
  {
  }

  /** The output script of a stake does not depend on the order of provider or covenant keys
      nor on the Y coordinate of any key. */
  lemma StakingPkScriptCanonical(tp: Taproot, c: Group, staker: Point, fpKeys: seq<Point>, covenantKeys: seq<Point>,
                                 staker': Point, fpKeys': seq<Point>, covenantKeys': seq<Point>,
                                 quorum: uint32, stakingTime: uint16)
    requires c.Valid() && c.x(staker) == c.x(staker')
    requires multiset(XOnly(c, fpKeys)) == multiset(XOnly(c, fpKeys'))
    requires multiset(XOnly(c, covenantKeys)) == multiset(XOnly(c, covenantKeys'))
    ensures StakingPkScript(tp, c, staker, fpKeys, covenantKeys, quorum, stakingTime)
            == StakingPkScript(tp, c, staker', fpKeys', covenantKeys', quorum, stakingTime)
  {
    ScriptPathsCanonical(c, staker, fpKeys, covenantKeys, staker', fpKeys', covenantKeys', quorum, stakingTime);
  }
}
