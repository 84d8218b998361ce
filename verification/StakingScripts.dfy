/** The staking script compiler (btcstaking/scripts_utils.go and the script part of
    btcstaking/types.go). */
module StakingScripts {
  import opened Prelude
  import opened Curve
  import opened Keys
  import opened Script

  /** txscript refuses to build scripts longer than this. */
  const MaxScriptSize := 10000

  datatype Error =
    | ScriptTooBig
    | NoKeys
    | ThresholdTooBig
    | DuplicatedKeyInScript

  type ScriptResult = Result<Bytes, Error>

  // ----- bytes of the single instructions -----

  function PushKey(key: Bytes): (b: Bytes)
    requires |key| == 32
  {
    [32] + key
  }

  /** The shortest push of a non-negative number. */
  function PushNum(v: uint32): (b: Bytes)
    ensures 1 <= |b| <= 6
  {
    if v == 0 then [OP_0]
    else if v <= 16 then [OP_1 + v - 1]
    else
      MinimalLELen(v, 4);
      [|EncodeNum(v)|] + EncodeNum(v)
  }

  function Sized(script: Bytes): (res: ScriptResult) {
    if |script| <= MaxScriptSize then Ok(script) else Err(ScriptTooBig)
  }

  // ----- the builder -----

  /** `txscript.ScriptBuilder`: after the first instruction that does not fit, nothing is
      added any more and the script is refused. */
  class ScriptBuilder {
    var script: Bytes
    var failed: bool

    /** Everything that was asked for, whether or not it fitted. */
    ghost var requested: Bytes

    ghost predicate Valid()
      reads this
    {
      (failed <==> |requested| > MaxScriptSize) && (!failed ==> script == requested)
    }

    constructor ()
      ensures Valid() && requested == []
    {
      script, failed, requested := [], false, [];
    }

    method Append(piece: Bytes)
      requires Valid()
      modifies this
      ensures Valid() && requested == old(requested) + piece
    {
      if !failed {
        if |script| + |piece| > MaxScriptSize {
          failed := true;
        } else {
          script := script + piece;
        }
      }
      requested := requested + piece;
    }

    method AddOp(op: byte)
      requires Valid()
      modifies this
      ensures Valid() && requested == old(requested) + [op]
    {
      Append([op]);
    }

    method AddKey(key: Bytes)
      requires Valid() && |key| == 32
      modifies this
      ensures Valid() && requested == old(requested) + PushKey(key)
    {
      Append(PushKey(key));
    }

    method AddInt64(v: uint32)
      requires Valid()
      modifies this
      ensures Valid() && requested == old(requested) + PushNum(v)
    {
      Append(PushNum(v));
    }

    method Build() returns (res: ScriptResult)
      requires Valid()
      ensures res == Sized(requested)
    {
      return if failed then Err(ScriptTooBig) else Ok(script);
    }
  }

  // ----- multisig scripts -----

  predicate AllKeys(keys: seq<Bytes>) {
    forall i :: 0 <= i < |keys| ==> |keys[i]| == 32
  }

  /** `<key1> CHECKSIG <key2> CHECKSIGADD ... <keyN> CHECKSIGADD` */
  function MultisigBody(keys: seq<Bytes>): (b: Bytes)
    requires AllKeys(keys)
    ensures |b| == 34 * |keys|
  {
    if keys == [] then []
    else
      var last := |keys| - 1;
      MultisigBody(keys[..last]) + PushKey(keys[last]) + [if last == 0 then OP_CHECKSIG else OP_CHECKSIGADD]
  }

  function MultisigBytes(keys: seq<Bytes>, threshold: uint32, withVerify: bool): (b: Bytes)
    requires AllKeys(keys)
  {
    MultisigBody(keys) + PushNum(threshold) + [if withVerify then OP_NUMEQUALVERIFY else OP_NUMEQUAL]
  }

  method AssembleMultiSigScript(c: Group, pubkeys: seq<Point>, threshold: uint32, withVerify: bool)
    returns (res: ScriptResult)
    requires c.Valid()
    ensures res == Sized(MultisigBytes(XOnly(c, pubkeys), threshold, withVerify))
  {
    hide PushNum, PushKey;
    var builder := new ScriptBuilder();
    ghost var keys := XOnly(c, pubkeys);
    for i := 0 to |pubkeys|
      invariant builder.Valid()
      invariant builder.requested == MultisigBody(keys[..i])
    {
      builder.AddKey(c.x(pubkeys[i]));
      if i == 0 {
        builder.AddOp(OP_CHECKSIG);
      } else {
        builder.AddOp(OP_CHECKSIGADD);
      }
      assert keys[..i + 1][..i] == keys[..i];
    }
    assert keys[..|pubkeys|] == keys;
    builder.AddInt64(threshold);
    if withVerify {
      builder.AddOp(OP_NUMEQUALVERIFY);
    } else {
      builder.AddOp(OP_NUMEQUAL);
    }
    res := builder.Build();
  }

  function SingleKeyBytes(key: Bytes, withVerify: bool): (b: Bytes)
    requires |key| == 32
    ensures |b| == 34
  {
    PushKey(key) + [if withVerify then OP_CHECKSIGVERIFY else OP_CHECKSIG]
  }

  method BuildSingleKeySigScript(c: Group, pubKey: Point, withVerify: bool) returns (res: ScriptResult)
    requires c.Valid()
    ensures res == Ok(SingleKeyBytes(c.x(pubKey), withVerify))
  {
    var builder := new ScriptBuilder();
    builder.AddKey(c.x(pubKey));
    if withVerify {
      builder.AddOp(OP_CHECKSIGVERIFY);
    } else {
      builder.AddOp(OP_CHECKSIG);
    }
    assert builder.requested == SingleKeyBytes(c.x(pubKey), withVerify);
    res := builder.Build();
  }

  function TimeLockBytes(key: Bytes, lockTime: uint16): (b: Bytes)
    requires |key| == 32
    ensures |b| <= 41
  {
    PushKey(key) + [OP_CHECKSIGVERIFY] + PushNum(lockTime) + [OP_CHECKSEQUENCEVERIFY]
  }

  method BuildTimeLockScript(c: Group, pubKey: Point, lockTime: uint16) returns (res: ScriptResult)
    requires c.Valid()
    ensures res == Ok(TimeLockBytes(c.x(pubKey), lockTime))
  {
    hide PushNum, PushKey;
    var builder := new ScriptBuilder();
    builder.AddKey(c.x(pubKey));
    builder.AddOp(OP_CHECKSIGVERIFY);
    builder.AddInt64(lockTime);
    builder.AddOp(OP_CHECKSEQUENCEVERIFY);
    assert builder.requested == TimeLockBytes(c.x(pubKey), lockTime);
    res := builder.Build();
  }

  /** The multisig script for a set of keys; a single key ignores the threshold. */
  ghost function MultiSigScript(c: Group, keys: seq<Point>, threshold: uint32, withVerify: bool): (res: ScriptResult)
    requires c.Valid()
  {
    if |keys| == 0 then Err(NoKeys)
    else if threshold > |keys| then Err(ThresholdTooBig)
    else if |keys| == 1 then Ok(SingleKeyBytes(c.x(keys[0]), withVerify))
    else Sized(MultisigBytes(XOnly(c, SortKeys(c, keys)), threshold, withVerify))
  }

  method BuildMultiSigScript(c: Group, keys: seq<Point>, threshold: uint32, withVerify: bool)
    returns (res: ScriptResult)
    requires c.Valid()
    ensures res == MultiSigScript(c, keys, threshold, withVerify)
  {
    if |keys| == 0 {
      return Err(NoKeys);
    }
    if threshold > |keys| {
      return Err(ThresholdTooBig);
    }
    if |keys| == 1 {
      res := BuildSingleKeySigScript(c, keys[0], withVerify);
      return;
    }
    var sortedKeys := SortKeys(c, keys);
    res := AssembleMultiSigScript(c, sortedKeys, threshold, withVerify);
  }

  // ----- all script paths of one stake -----

  /** Staker, provider and covenant keys in the order in which they are checked. */
  function AllStakeKeys(c: Group, staker: Point, fpKeys: seq<Point>, covenantKeys: seq<Point>): (r: seq<Bytes>) {
    [c.x(staker)] + XOnly(c, fpKeys) + XOnly(c, covenantKeys)
  }

  /** Adds keys to those already seen, up to the first one that is there already. */
  method AddNewKeys(c: Group, keyMap: set<Bytes>, keys: seq<Point>, ghost seen: seq<Bytes>)
    returns (dup: bool, res: set<Bytes>)
    requires Distinct(seen) && forall k :: k in keyMap <==> k in seen
    ensures dup <==> !Distinct(seen + XOnly(c, keys))
    ensures !dup ==> forall k :: k in res <==> k in seen + XOnly(c, keys)
  {
    hide Distinct;
    ghost var all := XOnly(c, keys);
    res := keyMap;
    assert seen + all[..0] == seen;
    for i := 0 to |keys|
      invariant Distinct(seen + all[..i])
      invariant forall k :: k in res <==> k in seen + all[..i]
    {
      var key := c.x(keys[i]);
      assert seen + all[..i + 1] == seen + all[..i] + [key];
      DistinctExtend(seen + all[..i], key);
      if key in res {
        assert (seen + all)[..|seen| + i + 1] == seen + all[..i + 1];
        DistinctPrefix(seen + all, |seen| + i + 1);
        return true, res;
      }
      res := res + {key};
    }
    assert all[..|keys|] == all;
    dup := false;
  }

  method CheckForDuplicateKeys(c: Group, staker: Point, fpKeys: seq<Point>, covenantKeys: seq<Point>)
    returns (err: Option<Error>)
    ensures err == if Distinct(AllStakeKeys(c, staker, fpKeys, covenantKeys)) then None
                   else Some(DuplicatedKeyInScript)
  {
    hide Distinct;
    ghost var first := [c.x(staker)];
    assert [] + first == first;
    DistinctExtend([], c.x(staker));
    var dup, keyMap := AddNewKeys(c, {c.x(staker)}, fpKeys, first);
    ghost var second, all := first + XOnly(c, fpKeys), AllStakeKeys(c, staker, fpKeys, covenantKeys);
    assert all[..|second|] == second;
    DistinctPrefix(all, |second|);
    if dup {
      return Some(DuplicatedKeyInScript);
    }
    dup, keyMap := AddNewKeys(c, keyMap, covenantKeys, second);
    if dup {
      return Some(DuplicatedKeyInScript);
    }
    return None;
  }

  lemma DistinctExtend(s: seq<Bytes>, k: Bytes)
    ensures Distinct([])
    ensures Distinct(s + [k]) <==> Distinct(s) && k !in s
  {
    var t := s + [k];
    if Distinct(t) {
      assert forall i :: 0 <= i < |s| ==> t[i] == s[i] && t[i] != t[|s|];
    }
  }

  lemma DistinctPrefix(s: seq<Bytes>, i: nat)
    requires i <= |s|
    ensures Distinct(s) ==> Distinct(s[..i])
  {
  }

  datatype Paths = Paths(timeLock: Bytes, unbonding: Bytes, slashing: Bytes)

  method AggregateScripts(scripts: seq<Bytes>) returns (finalScript: Bytes)
    ensures finalScript == Concat(scripts)
  {
    finalScript := [];
    for i := 0 to |scripts|
      invariant finalScript + Concat(scripts[i..]) == Concat(scripts)
    {
      assert scripts[i..][1..] == scripts[i + 1..];
      finalScript := finalScript + scripts[i];
    }
  }

  function Concat(scripts: seq<Bytes>): (b: Bytes) {
    if scripts == [] then [] else scripts[0] + Concat(scripts[1..])
  }

  lemma ConcatTwo(a: Bytes, b: Bytes)
    ensures Concat([a, b]) == a + b
  {
    assert Concat([b]) == b;
    assert [a, b][1..] == [b];
  }

  lemma ConcatThree(a: Bytes, b: Bytes, d: Bytes)
    ensures Concat([a, b, d]) == a + b + d
  {
    ConcatTwo(b, d);
    assert [a, b, d][1..] == [b, d];
  }

  /** The three spending paths of a staking output. */
  ghost function ScriptPaths(c: Group, staker: Point, fpKeys: seq<Point>, covenantKeys: seq<Point>,
                       covenantQuorum: uint32, lockTime: uint16): (res: Result<Paths, Error>)
    requires c.Valid()
  {
    if !Distinct(AllStakeKeys(c, staker, fpKeys, covenantKeys)) then Err(DuplicatedKeyInScript)
    else
      match MultiSigScript(c, covenantKeys, covenantQuorum, false)
      case Err(e) => Err(e)
      case Ok(covenant) =>
        match MultiSigScript(c, fpKeys, 1, true)
        case Err(e) => Err(e)
        case Ok(fps) =>
          var single := SingleKeyBytes(c.x(staker), true);
          Ok(Paths(TimeLockBytes(c.x(staker), lockTime), single + covenant, single + fps + covenant))
  }

  method NewBabylonScriptPaths(c: Group, staker: Point, fpKeys: seq<Point>, covenantKeys: seq<Point>,
                               covenantQuorum: uint32, lockTime: uint16)
    returns (res: Result<Paths, Error>)
    requires c.Valid()
    ensures res == ScriptPaths(c, staker, fpKeys, covenantKeys, covenantQuorum, lockTime)
  {
    hide Distinct, AllStakeKeys, MultiSigScript, SingleKeyBytes, TimeLockBytes, Concat;
    var dup := CheckForDuplicateKeys(c, staker, fpKeys, covenantKeys);
    if dup.Some? {
      return Err(dup.value);
    }
    var timeLock := BuildTimeLockScript(c, staker, lockTime);
    var covenant := BuildMultiSigScript(c, covenantKeys, covenantQuorum, false);
    if covenant.Err? {
      return Err(covenant.error);
    }
    var single := BuildSingleKeySigScript(c, staker, true);
    var fps := BuildMultiSigScript(c, fpKeys, 1, true);
    if fps.Err? {
      return Err(fps.error);
    }
    var unbonding := AggregateScripts([single.value, covenant.value]);
    ConcatTwo(single.value, covenant.value);
    var slashing := AggregateScripts([single.value, fps.value, covenant.value]);
    ConcatThree(single.value, fps.value, covenant.value);
    return Ok(Paths(timeLock.value, unbonding, slashing));
  }

  /** The three scripts of a stake always differ, whatever the keys and the lock time. */
  lemma ScriptPathsDiffer(c: Group, staker: Point, fpKeys: seq<Point>, covenantKeys: seq<Point>,
                          covenantQuorum: uint32, lockTime: uint16)
    requires c.Valid()
    requires ScriptPaths(c, staker, fpKeys, covenantKeys, covenantQuorum, lockTime).Ok?
    ensures var p := ScriptPaths(c, staker, fpKeys, covenantKeys, covenantQuorum, lockTime).value;
            0 < |p.timeLock| < |p.unbonding| < |p.slashing|
  {
    MultiSigScriptLen(c, covenantKeys, covenantQuorum, false);
    MultiSigScriptLen(c, fpKeys, 1, true);
  }

  lemma MultiSigScriptLen(c: Group, keys: seq<Point>, threshold: uint32, withVerify: bool)
    requires c.Valid() && MultiSigScript(c, keys, threshold, withVerify).Ok?
    ensures |MultiSigScript(c, keys, threshold, withVerify).value| >= 34
    ensures 1 <= |keys| <= 294 && threshold <= |keys|
  {
    if |keys| > 1 {
      var sorted := XOnly(c, SortKeys(c, keys));
      StableSortLen(c, keys);
    }
  }

  /** A multisig compiles exactly for one to 294 keys and a threshold of at most that many. */
  lemma MultiSigCompiles(c: Group, keys: seq<Point>, threshold: uint32, withVerify: bool)
    requires c.Valid()
    ensures MultiSigScript(c, keys, threshold, withVerify).Ok? <==> 1 <= |keys| <= 294 && threshold <= |keys|
  {
    if MultiSigScript(c, keys, threshold, withVerify).Ok? {
      MultiSigScriptLen(c, keys, threshold, withVerify);
    } else if 2 <= |keys| <= 294 && threshold <= |keys| {
      StableSortLen(c, keys);
      SmallPush(threshold);
    }
  }

  /** Numbers are pushed in the shortest form: up to sixteen by an opcode, otherwise with as many
      bytes as the sign bit leaves necessary. */
  lemma ShortestPush(v: uint32, k: nat)
    requires 1 <= k && v < 0x80 * Pow256(k - 1)
    ensures |PushNum(v)| <= if v <= 16 then 1 else k + 1
  {
    TopByte(v, k - 1);
  }

  lemma {:induction false} TopByte(v: nat, k: nat)
    requires v < 0x80 * Pow256(k)
    ensures |MinimalLE(v)| <= k || (|MinimalLE(v)| == k + 1 && MinimalLE(v)[k] < 0x80)
  {
    if v > 0 {
      if k == 0 {
        assert MinimalLE(v) == [v] + MinimalLE(0);
      } else {
        TopByte(v / 256, k - 1);
      }
    }
  }

  lemma SmallPush(v: uint32)
    requires v <= 294
    ensures |PushNum(v)| <= 3
  {
    assert Pow256(1) == 256 && Pow256(2) == 0x1_0000;
    MinimalLELen(v, 2);
  }

  /** No X coordinate is used twice, by whomever. */
  ghost predicate AllDiffer(c: Group, staker: Point, fpKeys: seq<Point>, covenantKeys: seq<Point>) {
    && (forall i, j :: 0 <= i < j < |fpKeys| ==> c.x(fpKeys[i]) != c.x(fpKeys[j]))
    && (forall i, j :: 0 <= i < j < |covenantKeys| ==> c.x(covenantKeys[i]) != c.x(covenantKeys[j]))
    && (forall i :: 0 <= i < |fpKeys| ==> c.x(fpKeys[i]) != c.x(staker))
    && (forall i :: 0 <= i < |covenantKeys| ==> c.x(covenantKeys[i]) != c.x(staker))
    && (forall i, j :: 0 <= i < |fpKeys| && 0 <= j < |covenantKeys| ==> c.x(fpKeys[i]) != c.x(covenantKeys[j]))
  }

  lemma AllDifferMeans(c: Group, staker: Point, fpKeys: seq<Point>, covenantKeys: seq<Point>)
    ensures Distinct(AllStakeKeys(c, staker, fpKeys, covenantKeys)) <==> AllDiffer(c, staker, fpKeys, covenantKeys)
  {
    var fps, covenant := XOnly(c, fpKeys), XOnly(c, covenantKeys);
    DistinctConcat([c.x(staker)] + fps, covenant);
    DistinctConcat([c.x(staker)], fps);
    assert Distinct([c.x(staker)]);
    hide Distinct;
    DistinctKeys(c, fpKeys);
    DistinctKeys(c, covenantKeys);
    assert Apart([c.x(staker)] + fps, covenant) <==> Apart([c.x(staker)], covenant) && Apart(fps, covenant) by {
      ApartConcat([c.x(staker)], fps, covenant);
    }
    ApartOne(c, staker, fpKeys);
    ApartOne(c, staker, covenantKeys);
    ApartKeys(c, fpKeys, covenantKeys);
    hide Apart;
  }

  ghost predicate Apart(s: seq<Bytes>, t: seq<Bytes>) {
    forall i, j :: 0 <= i < |s| && 0 <= j < |t| ==> s[i] != t[j]
  }

  lemma DistinctConcat(s: seq<Bytes>, t: seq<Bytes>)
    ensures Distinct(s + t) <==> Distinct(s) && Distinct(t) && Apart(s, t)
  {
    var all := s + t;
    if Distinct(all) {
      forall i, j | 0 <= i < |s| && 0 <= j < |t|
        ensures s[i] != t[j]
      {
        assert all[i] == s[i] && all[|s| + j] == t[j];
      }
      forall i, j | 0 <= i < j < |t|
        ensures t[i] != t[j]
      {
        assert all[|s| + i] == t[i] && all[|s| + j] == t[j];
      }
      assert forall i :: 0 <= i < |s| ==> all[i] == s[i];
    }
  }

  lemma ApartConcat(s: seq<Bytes>, t: seq<Bytes>, u: seq<Bytes>)
    ensures Apart(s + t, u) <==> Apart(s, u) && Apart(t, u)
  {
    var all := s + t;
    if Apart(all, u) {
      forall i, j | 0 <= i < |t| && 0 <= j < |u|
        ensures t[i] != u[j]
      {
        assert all[|s| + i] == t[i];
      }
      assert forall i :: 0 <= i < |s| ==> all[i] == s[i];
    }
  }

  lemma DistinctKeys(c: Group, keys: seq<Point>)
    ensures Distinct(XOnly(c, keys)) <==> forall i, j :: 0 <= i < j < |keys| ==> c.x(keys[i]) != c.x(keys[j])
  {
    assert forall i :: 0 <= i < |keys| ==> XOnly(c, keys)[i] == c.x(keys[i]);
  }

  lemma ApartOne(c: Group, staker: Point, keys: seq<Point>)
    ensures Apart([c.x(staker)], XOnly(c, keys)) <==> forall i :: 0 <= i < |keys| ==> c.x(keys[i]) != c.x(staker)
  {
    assert forall i :: 0 <= i < |keys| ==> XOnly(c, keys)[i] == c.x(keys[i]);
    assert [c.x(staker)][0] == c.x(staker);
  }

  lemma ApartKeys(c: Group, keys: seq<Point>, others: seq<Point>)
    ensures Apart(XOnly(c, keys), XOnly(c, others))
            <==> forall i, j :: 0 <= i < |keys| && 0 <= j < |others| ==> c.x(keys[i]) != c.x(others[j])
  {
    assert forall i :: 0 <= i < |keys| ==> XOnly(c, keys)[i] == c.x(keys[i]);
    assert forall i :: 0 <= i < |others| ==> XOnly(c, others)[i] == c.x(others[i]);
  }

  /** The scripts of a stake compile exactly if no X coordinate repeats, there are one to 294
      providers and covenant members, and the quorum is at most the size of the committee. */
  lemma ScriptPathsCompile(c: Group, staker: Point, fpKeys: seq<Point>, covenantKeys: seq<Point>,
                           covenantQuorum: uint32, lockTime: uint16)
    requires c.Valid()
    ensures ScriptPaths(c, staker, fpKeys, covenantKeys, covenantQuorum, lockTime).Ok?
            <==> && AllDiffer(c, staker, fpKeys, covenantKeys)
                 && 1 <= |fpKeys| <= 294 && 1 <= |covenantKeys| <= 294 && covenantQuorum <= |covenantKeys|
  {
    hide Distinct, AllDiffer, MultiSigScript, Group.Valid, TimeLockBytes;
    AllDifferMeans(c, staker, fpKeys, covenantKeys);
    MultiSigCompiles(c, covenantKeys, covenantQuorum, false);
    MultiSigCompiles(c, fpKeys, 1, true);
  }

  lemma StableSortLen(c: Group, keys: seq<Point>)
    ensures |SortKeys(c, keys)| == |keys|
  {
    StableSort.SortMembers(KeyLess(c), keys);
  }

  /** Permuting provider or covenant keys or negating any key changes nothing. */
  lemma ScriptPathsCanonical(c: Group, staker: Point, fpKeys: seq<Point>, covenantKeys: seq<Point>,
                             staker': Point, fpKeys': seq<Point>, covenantKeys': seq<Point>,
                             covenantQuorum: uint32, lockTime: uint16)
    requires c.Valid() && c.x(staker) == c.x(staker')
    requires multiset(XOnly(c, fpKeys)) == multiset(XOnly(c, fpKeys'))
    requires multiset(XOnly(c, covenantKeys)) == multiset(XOnly(c, covenantKeys'))
    ensures ScriptPaths(c, staker, fpKeys, covenantKeys, covenantQuorum, lockTime)
            == ScriptPaths(c, staker', fpKeys', covenantKeys', covenantQuorum, lockTime)
  {
    hide Distinct, AllStakeKeys, MultiSigScript, SingleKeyBytes, TimeLockBytes;
    MultiSigScriptCanonical(c, covenantKeys, covenantKeys', covenantQuorum, false);
    MultiSigScriptCanonical(c, fpKeys, fpKeys', 1, true);
    StakeKeysMembers(c, staker, fpKeys, covenantKeys);
    StakeKeysMembers(c, staker', fpKeys', covenantKeys');
    DistinctCanonical(AllStakeKeys(c, staker, fpKeys, covenantKeys), AllStakeKeys(c, staker', fpKeys', covenantKeys'));
  }

  lemma DistinctCanonical(s: seq<Bytes>, t: seq<Bytes>)
    ensures multiset(s) == multiset(t) ==> (Distinct(s) <==> Distinct(t))
  {
    DistinctIsCount(s);
    DistinctIsCount(t);
  }

  lemma StakeKeysMembers(c: Group, staker: Point, fpKeys: seq<Point>, covenantKeys: seq<Point>)
    ensures multiset(AllStakeKeys(c, staker, fpKeys, covenantKeys))
            == multiset{c.x(staker)} + multiset(XOnly(c, fpKeys)) + multiset(XOnly(c, covenantKeys))
  {
  }

  lemma MultiSigScriptCanonical(c: Group, keys: seq<Point>, keys': seq<Point>, threshold: uint32, withVerify: bool)
    requires c.Valid() && multiset(XOnly(c, keys)) == multiset(XOnly(c, keys'))
    ensures MultiSigScript(c, keys, threshold, withVerify) == MultiSigScript(c, keys', threshold, withVerify)
  {
    assert |keys| == |multiset(XOnly(c, keys))| == |keys'|;
    SortKeysCanonical(c, keys, keys');
    if |keys| == 1 {
      assert XOnly(c, keys)[0] in multiset(XOnly(c, keys'));
      assert XOnly(c, keys)[0] == XOnly(c, keys')[0];
    }
  }

  lemma {:induction false} DistinctIsCount(s: seq<Bytes>)
    ensures Distinct(s) <==> forall k :: multiset(s)[k] <= 1
  {
    if s != [] {
      hide Distinct;
      var front, last := s[..|s| - 1], s[|s| - 1];
      DistinctIsCount(front);
      DistinctExtend(front, last);
      assert s == front + [last];
      assert multiset(s) == multiset(front) + multiset{last};
      assert multiset(s)[last] == multiset(front)[last] + 1;
      assert forall k :: multiset(front)[k] <= multiset(s)[k];
      assert last in front <==> multiset(front)[last] >= 1;
    }
  }
}
