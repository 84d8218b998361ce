/** What the compiled staking scripts accept, for every witness stack. */
module ScriptMeaning {
  import opened Prelude
  import opened Curve
  import opened Keys
  import opened Script
  import opened StakingScripts
  import StableSort

  // ----- what a multisig asks for -----

  function CountSigs(sigs: seq<Bytes>): (n: nat)
    ensures n <= |sigs|
  {
    if sigs == [] then 0 else (if sigs[0] == [] then 0 else 1) + CountSigs(sigs[1..])
  }

  /** Every signature is empty or valid for its own key; the last signature belongs to the
      first key, since it is on top of the stack. */
  predicate SigsFit(env: Env, keys: seq<Bytes>, sigs: seq<Bytes>) {
    && |sigs| == |keys|
    && forall i :: 0 <= i < |sigs| ==> sigs[i] == [] || env.SigOk(keys[|keys| - 1 - i], sigs[i])
  }

  /** Exactly `need` of the signatures are there, and they are valid. */
  predicate Satisfied(env: Env, keys: seq<Bytes>, sigs: seq<Bytes>, need: nat) {
    SigsFit(env, keys, sigs) && CountSigs(sigs) == need
  }

  /** A multisig over one key is a plain signature check and ignores the threshold. */
  function Needed(keys: seq<Point>, threshold: nat): (n: nat) {
    if |keys| == 1 then 1 else threshold
  }

  lemma SigsFitStep(env: Env, keys: seq<Bytes>, sigs: seq<Bytes>)
    requires |sigs| == |keys| > 0
    ensures SigsFit(env, keys, sigs)
            <==> (sigs[0] == [] || env.SigOk(keys[|keys| - 1], sigs[0]))
                 && SigsFit(env, keys[..|keys| - 1], sigs[1..])
  {
    var front, rest := keys[..|keys| - 1], sigs[1..];
    if SigsFit(env, front, rest) {
      forall i | 1 <= i < |sigs|
        ensures sigs[i] == [] || env.SigOk(keys[|keys| - 1 - i], sigs[i])
      {
        assert rest[i - 1] == sigs[i] && front[|front| - 1 - (i - 1)] == keys[|keys| - 1 - i];
      }
    }
    if SigsFit(env, keys, sigs) {
      forall i | 0 <= i < |rest|
        ensures rest[i] == [] || env.SigOk(front[|front| - 1 - i], rest[i])
      {
        assert rest[i] == sigs[i + 1] && front[|front| - 1 - i] == keys[|keys| - 1 - (i + 1)];
      }
    }
  }

  // ----- decoding the compiled bytes -----

  function MultisigOps(keys: seq<Bytes>): (ops: seq<Op>) {
    if keys == [] then []
    else
      var last := |keys| - 1;
      MultisigOps(keys[..last]) + [Push(keys[last]), if last == 0 then CheckSig else CheckSigAdd]
  }

  lemma DecodeInstruction(instr: Bytes)
    requires instr != [] && |instr| == InstructionLen(instr) && DecodeOne(instr).Some?
    ensures Decode(instr) == Some([DecodeOne(instr).value])
  {
    hide DecodeOne;
    var len := InstructionLen(instr);
    assert instr[..len] == instr && instr[len..] == [];
    assert Decode([]) == Some([]);
    assert [DecodeOne(instr).value] + [] == [DecodeOne(instr).value];
  }

  lemma DecodePushKey(key: Bytes)
    requires |key| == 32
    ensures Decode(PushKey(key)) == Some([Push(key)])
  {
    DecodeInstruction(PushKey(key));
  }

  lemma DecodePushNum(v: uint32)
    ensures Decode(PushNum(v)) == Some([Push(EncodeNum(v))])
  {
    MinimalLELen(v, 4);
    if v > 0 {
      MinimalLELast(v);
    }
    if 0 < v <= 16 {
      assert MinimalLE(v) == [v] + MinimalLE(0);
      assert EncodeNum(v) == [v];
    }
    DecodeInstruction(PushNum(v));
  }

  /** A decoded script followed by one opcode. */
  lemma DecodeSnoc(script: Bytes, code: byte)
    requires Decode(script).Some? && code > OP_16 && DecodeOne([code]).Some?
    ensures Decode(script + [code]) == Some(Decode(script).value + [DecodeOne([code]).value])
  {
    DecodeInstruction([code]);
    DecodeConcat(script, [code]);
  }

  lemma DecodeKeyCheck(script: Bytes, key: Bytes, first: bool)
    requires Decode(script).Some? && |key| == 32
    ensures Decode(script + PushKey(key) + [if first then OP_CHECKSIG else OP_CHECKSIGADD])
            == Some(Decode(script).value + [Push(key), if first then CheckSig else CheckSigAdd])
  {
    hide Decode, PushKey;
    DecodePushKey(key);
    DecodeConcat(script, PushKey(key));
    DecodeSnoc(script + PushKey(key), if first then OP_CHECKSIG else OP_CHECKSIGADD);
    var ops := Decode(script).value;
    assert ops + [Push(key)] + [if first then CheckSig else CheckSigAdd]
        == ops + [Push(key), if first then CheckSig else CheckSigAdd];
  }

  lemma {:induction false} DecodeMultisigBody(keys: seq<Bytes>)
    requires AllKeys(keys)
    ensures Decode(MultisigBody(keys)) == Some(MultisigOps(keys))
  {
    if keys != [] {
      hide Decode, PushKey;
      var last := |keys| - 1;
      DecodeMultisigBody(keys[..last]);
      DecodeKeyCheck(MultisigBody(keys[..last]), keys[last], last == 0);
    }
  }

  function ThresholdOps(threshold: uint32, withVerify: bool): (ops: seq<Op>) {
    [Push(EncodeNum(threshold)), if withVerify then NumEqualVerify else NumEqual]
  }

  lemma DecodeMultisig(keys: seq<Bytes>, threshold: uint32, withVerify: bool)
    requires AllKeys(keys)
    ensures Decode(MultisigBytes(keys, threshold, withVerify))
            == Some(MultisigOps(keys) + ThresholdOps(threshold, withVerify))
  {
    hide Decode, PushNum, EncodeNum, MultisigOps, MultisigBody;
    var body := MultisigBody(keys);
    DecodeMultisigBody(keys);
    DecodePushNum(threshold);
    DecodeConcat(body, PushNum(threshold));
    DecodeSnoc(body + PushNum(threshold), if withVerify then OP_NUMEQUALVERIFY else OP_NUMEQUAL);
    assert MultisigOps(keys) + [Push(EncodeNum(threshold))] + [if withVerify then NumEqualVerify else NumEqual]
        == MultisigOps(keys) + ThresholdOps(threshold, withVerify);
  }

  function SingleOps(key: Bytes, withVerify: bool): (ops: seq<Op>) {
    [Push(key), if withVerify then CheckSigVerify else CheckSig]
  }

  lemma DecodeSingle(key: Bytes, withVerify: bool)
    requires |key| == 32
    ensures Decode(SingleKeyBytes(key, withVerify)) == Some(SingleOps(key, withVerify))
  {
    DecodePushKey(key);
    DecodeSnoc(PushKey(key), if withVerify then OP_CHECKSIGVERIFY else OP_CHECKSIG);
    assert [Push(key)] + [if withVerify then CheckSigVerify else CheckSig] == SingleOps(key, withVerify);
  }

  // ----- running them -----

  lemma RunTwo(env: Env, data: Bytes, op: Op, st: seq<Bytes>)
    requires |st| < MaxStackSize
    ensures Run(env, [Push(data), op], st)
            == match Step(env, op, st + [data])
               case None => None
               case Some(st') => if |st'| > MaxStackSize then None else Some(st')
  {
    hide Step;
    var ops := [Push(data), op];
    assert ops[1..] == [op] && [op][1..] == [];
    assert Step(env, ops[0], st) == Some(st + [data]) by { PushStep(env, data, st); }
    assert Run(env, ops, st) == Run(env, [op], st + [data]);
    var next := Step(env, op, st + [data]);
    if next.Some? && |next.value| <= MaxStackSize {
      assert Run(env, [], next.value) == next;
    }
  }

  lemma PushStep(env: Env, data: Bytes, st: seq<Bytes>)
    ensures Step(env, Push(data), st) == Some(st + [data])
  {
  }

  lemma SmallNum(v: nat)
    requires v < 0x8000
    ensures DecodeNum(EncodeNum(v), 4) == Some(v)
  {
    assert Pow256(2) == 0x1_0000;
    MinimalLELen(v, 2);
    DecodeEncodeNum(v, 4);
  }

  /** The stack after the signature part of a multisig: its signatures are replaced by the
      number of them that were given. */
  function AfterSigs(env: Env, keys: seq<Bytes>, st: seq<Bytes>): (res: Option<seq<Bytes>>) {
    if |st| >= |keys| && SigsFit(env, keys, st[|st| - |keys|..])
    then Some(st[..|st| - |keys|] + [EncodeNum(CountSigs(st[|st| - |keys|..]))])
    else None
  }

  lemma {:induction false} RunMultisigOps(env: Env, keys: seq<Bytes>, st: seq<Bytes>)
    requires AllKeys(keys) && 1 <= |keys| < 0x8000 && |st| < MaxStackSize
    ensures Run(env, MultisigOps(keys), st) == AfterSigs(env, keys, st)
  {
    var n := |keys|;
    var front, key := keys[..n - 1], keys[n - 1];
    hide Run, Step;
    if n == 1 {
      assert MultisigOps(front) == [];
      assert MultisigOps(keys) == [Push(key), CheckSig];
      RunTwo(env, key, CheckSig, st);
      RunFirstKey(env, key, st);
      assert keys == [key];
    } else {
      assert MultisigOps(keys) == MultisigOps(front) + [Push(key), CheckSigAdd];
      RunConcat(env, MultisigOps(front), [Push(key), CheckSigAdd], st);
      RunMultisigOps(env, front, st);
      RunNextKey(env, front, key, st);
      assert keys == front + [key];
    }
  }

  /** CHECKSIG on a signature: its count, none or one, or failure. */
  lemma StepCheckSig(env: Env, below: seq<Bytes>, sig: Bytes, key: Bytes)
    requires |key| == 32
    ensures Step(env, CheckSig, below + [sig, key])
            == if sig == [] || env.SigOk(key, sig)
               then Some(below + [EncodeNum(if sig == [] then 0 else 1)]) else None
  {
    var st := below + [sig, key];
    assert Top(st, 0) == key && Top(st, 1) == sig;
    assert st[..|st| - 2] == below;
    assert EncodeNum(0) == [] && MinimalLE(1) == [1] + MinimalLE(0) && EncodeNum(1) == [1];
  }

  lemma RunFirstKey(env: Env, key: Bytes, st: seq<Bytes>)
    requires |key| == 32 && |st| < MaxStackSize
    ensures Step(env, CheckSig, st + [key]) == AfterSigs(env, [key], st)
  {
    if |st| >= 1 {
      hide Step, EncodeNum;
      var below, sigs := st[..|st| - 1], st[|st| - 1..];
      assert sigs == [st[|st| - 1]] && sigs[1..] == [];
      SigsFitStep(env, [key], sigs);
      assert st + [key] == below + [sigs[0], key];
      StepCheckSig(env, below, sigs[0], key);
    }
  }

  /** CHECKSIGADD on a signature below a count: it adds the signature or fails. */
  lemma StepCheckSigAdd(env: Env, below: seq<Bytes>, sig: Bytes, count: nat, key: Bytes)
    requires |key| == 32 && count < 0x7fff
    ensures Step(env, CheckSigAdd, below + [sig, EncodeNum(count), key])
            == if sig == [] || env.SigOk(key, sig)
               then Some(below + [EncodeNum(count + if sig == [] then 0 else 1)]) else None
  {
    hide DecodeNum, EncodeNum;
    SmallNum(count);
    var st := below + [sig, EncodeNum(count), key];
    assert Top(st, 0) == key && Top(st, 1) == EncodeNum(count) && Top(st, 2) == sig;
    assert st[..|st| - 3] == below;
  }

  lemma RunNextKey(env: Env, front: seq<Bytes>, key: Bytes, st: seq<Bytes>)
    requires AllKeys(front) && |key| == 32 && 1 <= |front| < 0x7fff && |st| < MaxStackSize
    ensures RunFrom(env, [Push(key), CheckSigAdd], AfterSigs(env, front, st)) == AfterSigs(env, front + [key], st)
  {
    hide EncodeNum, Step, Run, SigsFit;
    var m, keys := |front|, front + [key];
    if |st| > m {
      assert keys[..m] == front;
      var sigs, rest := st[|st| - m - 1..], st[|st| - m..];
      assert sigs[1..] == rest && sigs[0] == st[|st| - m - 1];
      SigsFitStep(env, keys, sigs);
      if SigsFit(env, front, rest) {
        var count, below := CountSigs(rest), st[..|st| - m - 1];
        var st1 := st[..|st| - m] + [EncodeNum(count)];
        RunTwo(env, key, CheckSigAdd, st1);
        assert st1 + [key] == below + [sigs[0], EncodeNum(count), key];
        StepCheckSigAdd(env, below, sigs[0], count, key);
      }
    } else if |st| == m {
      RunMissingSig(env, key, EncodeNum(CountSigs(st[0..])));
      assert st[..0] + [EncodeNum(CountSigs(st[0..]))] == [EncodeNum(CountSigs(st[0..]))];
    }
  }

  lemma RunMissingSig(env: Env, key: Bytes, count: Bytes)
    ensures Run(env, [Push(key), CheckSigAdd], [count]) == None
  {
    RunTwo(env, key, CheckSigAdd, [count]);
    hide Run;
  }

  /** Equality with the threshold: only the exact number of signatures passes. */
  lemma RunThreshold(env: Env, count: nat, threshold: uint32, withVerify: bool, rest: seq<Bytes>)
    requires count < 0x8000 && threshold < 0x8000 && |rest| + 1 < MaxStackSize
    ensures Run(env, ThresholdOps(threshold, withVerify), rest + [EncodeNum(count)])
            == if withVerify then (if count == threshold then Some(rest) else None)
               else Some(rest + [Bool(count == threshold)])
  {
    var st := rest + [EncodeNum(count)];
    RunTwo(env, EncodeNum(threshold), if withVerify then NumEqualVerify else NumEqual, st);
    SmallNum(count);
    SmallNum(threshold);
    var st2 := st + [EncodeNum(threshold)];
    assert st2[..|st2| - 2] == rest;
    assert Top(st2, 0) == EncodeNum(threshold) && Top(st2, 1) == EncodeNum(count);
  }

  lemma RunSingle(env: Env, key: Bytes, st: seq<Bytes>)
    requires |key| == 32 && |st| < MaxStackSize
    ensures Run(env, SingleOps(key, true), st)
            == if |st| >= 1 && Satisfied(env, [key], st[|st| - 1..], 1) then Some(st[..|st| - 1]) else None
    ensures |st| >= 1 ==> (Satisfied(env, [key], st[|st| - 1..], 1) <==> env.SigOk(key, st[|st| - 1]))
  {
    RunTwo(env, key, CheckSigVerify, st);
    if |st| >= 1 {
      var sigs := st[|st| - 1..];
      assert sigs == [st[|st| - 1]] && sigs[1..] == [];
      SigsFitStep(env, [key], sigs);
      assert (st + [key])[..|st| - 1] == st[..|st| - 1];
    }
  }

  lemma RunSingleFinal(env: Env, key: Bytes, st: seq<Bytes>)
    requires |key| == 32 && |st| < MaxStackSize
    ensures Run(env, SingleOps(key, false), st)
            == if |st| >= 1 && SigsFit(env, [key], st[|st| - 1..])
               then Some(st[..|st| - 1] + [Bool(CountSigs(st[|st| - 1..]) == 1)]) else None
  {
    hide Run, Step, SigsFit;
    RunTwo(env, key, CheckSig, st);
    RunFirstKey(env, key, st);
    if |st| >= 1 {
      var sigs := st[|st| - 1..];
      assert sigs == [st[|st| - 1]] && sigs[1..] == [];
      assert EncodeNum(0) == [] && MinimalLE(1) == [1] + MinimalLE(0) && EncodeNum(1) == [1];
    }
  }

  /** A multisig in the middle of a script: it drops its signatures or fails. */
  lemma RunVerified(env: Env, c: Group, keys: seq<Point>, threshold: uint32, st: seq<Bytes>)
    requires c.Valid() && MultiSigScript(c, keys, threshold, true).Ok? && |st| < MaxStackSize
    ensures Decode(MultiSigScript(c, keys, threshold, true).value).Some?
    ensures Run(env, Decode(MultiSigScript(c, keys, threshold, true).value).value, st)
            == if |st| >= |keys|
                  && Satisfied(env, XOnly(c, SortKeys(c, keys)), st[|st| - |keys|..], Needed(keys, threshold))
               then Some(st[..|st| - |keys|]) else None
  {
    hide Run, Step, Decode, MultisigOps, ThresholdOps, EncodeNum, SigsFit, MultisigBytes;
    var sorted := XOnly(c, SortKeys(c, keys));
    MultiSigScriptLen(c, keys, threshold, true);
    StableSortLen(c, keys);
    if |keys| == 1 {
      var key := c.x(keys[0]);
      SortSingle(c, keys);
      DecodeSingle(key, true);
      RunSingle(env, key, st);
    } else {
      DecodeMultisig(sorted, threshold, true);
      RunConcat(env, MultisigOps(sorted), ThresholdOps(threshold, true), st);
      RunMultisigOps(env, sorted, st);
      if |st| >= |keys| {
        var sigs := st[|st| - |keys|..];
        RunThreshold(env, CountSigs(sigs), threshold, true, st[..|st| - |keys|]);
      }
    }
  }

  lemma SortSingle(c: Group, keys: seq<Point>)
    requires |keys| == 1
    ensures XOnly(c, SortKeys(c, keys)) == [c.x(keys[0])]
  {
    assert keys[1..] == [] && SortKeys(c, []) == [];
    assert SortKeys(c, keys) == StableSort.Insert(KeyLess(c), keys[0], SortKeys(c, []));
  }

  /** A multisig at the end of a script: it leaves a truth value or fails. */
  lemma RunFinal(env: Env, c: Group, keys: seq<Point>, threshold: uint32, st: seq<Bytes>)
    requires c.Valid() && MultiSigScript(c, keys, threshold, false).Ok? && |st| < MaxStackSize
    ensures Decode(MultiSigScript(c, keys, threshold, false).value).Some?
    ensures Run(env, Decode(MultiSigScript(c, keys, threshold, false).value).value, st)
            == if |st| >= |keys| && SigsFit(env, XOnly(c, SortKeys(c, keys)), st[|st| - |keys|..])
               then Some(st[..|st| - |keys|] + [Bool(CountSigs(st[|st| - |keys|..]) == Needed(keys, threshold))])
               else None
  {
    hide Run, Step, Decode, MultisigOps, ThresholdOps, EncodeNum, SigsFit, MultisigBytes;
    var sorted := XOnly(c, SortKeys(c, keys));
    MultiSigScriptLen(c, keys, threshold, false);
    StableSortLen(c, keys);
    if |keys| == 1 {
      var key := c.x(keys[0]);
      SortSingle(c, keys);
      DecodeSingle(key, false);
      RunSingleFinal(env, key, st);
    } else {
      DecodeMultisig(sorted, threshold, false);
      RunConcat(env, MultisigOps(sorted), ThresholdOps(threshold, false), st);
      RunMultisigOps(env, sorted, st);
      if |st| >= |keys| {
        RunThreshold(env, CountSigs(st[|st| - |keys|..]), threshold, false, st[..|st| - |keys|]);
      }
    }
  }

  // ----- the three spending paths -----

  /** Running `<staker> CHECKSIGVERIFY` before the rest of a script. */
  lemma RunAfterStaker(env: Env, key: Bytes, script: Bytes, wit: seq<Bytes>)
    requires |key| == 32 && Decode(script).Some?
    ensures Decode(SingleKeyBytes(key, true) + script) == Some(SingleOps(key, true) + Decode(script).value)
    ensures Run(env, SingleOps(key, true) + Decode(script).value, wit)
            == if 1 <= |wit| < MaxStackSize && env.SigOk(key, wit[|wit| - 1])
               then Run(env, Decode(script).value, wit[..|wit| - 1]) else None
  {
    hide Decode;
    DecodeSingle(key, true);
    DecodeConcat(SingleKeyBytes(key, true), script);
    RunConcat(env, SingleOps(key, true), Decode(script).value, wit);
    if |wit| < MaxStackSize {
      RunSingle(env, key, wit);
    }
  }

  /** Signatures that are empty or valid are within the element size limit. */
  lemma SigsAreSmall(env: Env, keys: seq<Bytes>, sigs: seq<Bytes>)
    requires env.Valid() && AllKeys(keys) && SigsFit(env, keys, sigs)
    ensures forall i :: 0 <= i < |sigs| ==> |sigs[i]| <= MaxScriptElementSize
  {
    forall i | 0 <= i < |sigs|
      ensures |sigs[i]| <= MaxScriptElementSize
    {
      assert sigs[i] == [] || env.SigOk(keys[|keys| - 1 - i], sigs[i]);
    }
  }

  /** The unbonding path accepts a witness exactly when it consists of the covenant
      signatures and a valid staker signature on top, exactly the quorum of covenant
      members has signed, and the signatures are in reverse key order. */
  lemma UnbondingPathMeaning(env: Env, c: Group, staker: Point, fpKeys: seq<Point>, covenantKeys: seq<Point>,
                             quorum: uint32, lockTime: uint16, wit: seq<Bytes>)
    requires env.Valid() && c.Valid()
    requires ScriptPaths(c, staker, fpKeys, covenantKeys, quorum, lockTime).Ok?
    ensures Accepts(env, ScriptPaths(c, staker, fpKeys, covenantKeys, quorum, lockTime).value.unbonding, wit)
            <==> && |wit| == |covenantKeys| + 1
                 && env.SigOk(c.x(staker), wit[|wit| - 1])
                 && Satisfied(env, XOnly(c, SortKeys(c, covenantKeys)), wit[..|covenantKeys|],
                              Needed(covenantKeys, quorum))
  {
    hide Run, Decode, SigsFit, CountSigs, SingleKeyBytes, MultiSigScript, CastToBool,
      Distinct, AllStakeKeys, TimeLockBytes, Env.SigOk;
    var m := |covenantKeys|;
    var sorted, covenant := XOnly(c, SortKeys(c, covenantKeys)), MultiSigScript(c, covenantKeys, quorum, false).value;
    MultiSigScriptLen(c, covenantKeys, quorum, false);
    StableSortLen(c, covenantKeys);
    RunFinal(env, c, covenantKeys, quorum, []);
    RunAfterStaker(env, c.x(staker), covenant, wit);
    if 1 <= |wit| < MaxStackSize {
      FinalEndsTrue(env, c, covenantKeys, quorum, wit[..|wit| - 1]);
      if |wit| == m + 1 {
        assert wit[m..m] == [];
        SlotsAreSmall(env, [], sorted, c.x(staker), wit, m, 0);
        EmptyFits(env);
      }
    }
  }

  lemma EmptyFits(env: Env)
    ensures SigsFit(env, [], [])
  {
  }

  /** The covenant part alone, as the end of a script. */
  lemma FinalEndsTrue(env: Env, c: Group, keys: seq<Point>, threshold: uint32, st: seq<Bytes>)
    requires c.Valid() && MultiSigScript(c, keys, threshold, false).Ok? && |st| < MaxStackSize
    ensures Decode(MultiSigScript(c, keys, threshold, false).value).Some?
    ensures EndsTrue(Run(env, Decode(MultiSigScript(c, keys, threshold, false).value).value, st))
            <==> |st| == |keys| && Satisfied(env, XOnly(c, SortKeys(c, keys)), st, Needed(keys, threshold))
  {
    hide Run, Decode, SigsFit, CountSigs, MultiSigScript, CastToBool;
    RunFinal(env, c, keys, threshold, st);
    StableSortLen(c, keys);
    if |st| >= |keys| {
      var sigs := st[|st| - |keys|..];
      BoolTruth(CountSigs(sigs) == Needed(keys, threshold));
      if |st| == |keys| {
        assert sigs == st && st[..0] == [];
      }
    }
  }

  /** The slashing path accepts a witness exactly when, from the top of the stack down, it
      consists of a valid staker signature, one slot per provider of which exactly one is
      filled, and one slot per covenant member of which exactly the quorum is filled; filled
      slots hold valid signatures, and slots are in reverse key order. */
  lemma SlashingPathMeaning(env: Env, c: Group, staker: Point, fpKeys: seq<Point>, covenantKeys: seq<Point>,
                            quorum: uint32, lockTime: uint16, wit: seq<Bytes>)
    requires env.Valid() && c.Valid()
    requires ScriptPaths(c, staker, fpKeys, covenantKeys, quorum, lockTime).Ok?
    ensures Accepts(env, ScriptPaths(c, staker, fpKeys, covenantKeys, quorum, lockTime).value.slashing, wit)
            <==> && |wit| == |covenantKeys| + |fpKeys| + 1
                 && env.SigOk(c.x(staker), wit[|wit| - 1])
                 && Satisfied(env, XOnly(c, SortKeys(c, fpKeys)),
                              wit[|covenantKeys|..|covenantKeys| + |fpKeys|], 1)
                 && Satisfied(env, XOnly(c, SortKeys(c, covenantKeys)), wit[..|covenantKeys|],
                              Needed(covenantKeys, quorum))
  {
    hide Run, Decode, SigsFit, CountSigs, SingleKeyBytes, MultiSigScript, CastToBool,
      Distinct, AllStakeKeys, TimeLockBytes, Env.SigOk;
    var m, f := |covenantKeys|, |fpKeys|;
    var covenant := MultiSigScript(c, covenantKeys, quorum, false).value;
    var fps := MultiSigScript(c, fpKeys, 1, true).value;
    MultiSigScriptLen(c, covenantKeys, quorum, false);
    MultiSigScriptLen(c, fpKeys, 1, true);
    StableSortLen(c, covenantKeys);
    StableSortLen(c, fpKeys);
    RunFinal(env, c, covenantKeys, quorum, []);
    RunVerified(env, c, fpKeys, 1, []);
    DecodeConcat(fps, covenant);
    RunAfterStaker(env, c.x(staker), fps + covenant, wit);
    assert SingleKeyBytes(c.x(staker), true) + (fps + covenant) == SingleKeyBytes(c.x(staker), true) + fps + covenant;
    if 1 <= |wit| < MaxStackSize {
      var st := wit[..|wit| - 1];
      ProvidersThenCovenant(env, c, fpKeys, covenantKeys, quorum, st);
      if |wit| == m + f + 1 {
        assert st[m..] == wit[m..m + f] && st[..m] == wit[..m];
        SlotsAreSmall(env, XOnly(c, SortKeys(c, fpKeys)), XOnly(c, SortKeys(c, covenantKeys)), c.x(staker), wit, m, f);
      }
    }
  }

  /** The provider part followed by the covenant part. */
  lemma ProvidersThenCovenant(env: Env, c: Group, fpKeys: seq<Point>, covenantKeys: seq<Point>,
                              quorum: uint32, st: seq<Bytes>)
    requires c.Valid() && |st| < MaxStackSize
    requires MultiSigScript(c, fpKeys, 1, true).Ok? && MultiSigScript(c, covenantKeys, quorum, false).Ok?
    ensures var fps, covenant := Decode(MultiSigScript(c, fpKeys, 1, true).value),
                                 Decode(MultiSigScript(c, covenantKeys, quorum, false).value);
            fps.Some? && covenant.Some?
            && (EndsTrue(Run(env, fps.value + covenant.value, st))
                <==> && |st| == |covenantKeys| + |fpKeys|
                     && Satisfied(env, XOnly(c, SortKeys(c, fpKeys)), st[|covenantKeys|..], 1)
                     && Satisfied(env, XOnly(c, SortKeys(c, covenantKeys)), st[..|covenantKeys|],
                                  Needed(covenantKeys, quorum)))
  {
    hide Run, Decode, Satisfied, MultiSigScript, CastToBool;
    var f := |fpKeys|;
    RunVerified(env, c, fpKeys, 1, st);
    FinalEndsTrue(env, c, covenantKeys, quorum, []);
    RunConcat(env, Decode(MultiSigScript(c, fpKeys, 1, true).value).value,
              Decode(MultiSigScript(c, covenantKeys, quorum, false).value).value, st);
    assert Needed(fpKeys, 1) == 1;
    if |st| >= f {
      FinalEndsTrue(env, c, covenantKeys, quorum, st[..|st| - f]);
    }
  }

  lemma SlotsAreSmall(env: Env, fps: seq<Bytes>, covenant: seq<Bytes>, staker: Bytes, wit: seq<Bytes>, m: nat, f: nat)
    requires env.Valid() && AllKeys(fps) && AllKeys(covenant) && |staker| == 32
    requires |wit| == m + f + 1
    ensures env.SigOk(staker, wit[m + f]) && SigsFit(env, fps, wit[m..m + f]) && SigsFit(env, covenant, wit[..m])
            ==> forall i :: 0 <= i < |wit| ==> |wit[i]| <= MaxScriptElementSize
  {
    if env.SigOk(staker, wit[m + f]) && SigsFit(env, fps, wit[m..m + f]) && SigsFit(env, covenant, wit[..m]) {
      SigsAreSmall(env, fps, wit[m..m + f]);
      SigsAreSmall(env, covenant, wit[..m]);
      forall i | 0 <= i < |wit|
        ensures |wit[i]| <= MaxScriptElementSize
      {
        if i < m {
          assert wit[i] == wit[..m][i];
        } else if i < m + f {
          assert wit[i] == wit[m..m + f][i - m];
        }
      }
    }
  }

  /** The lock of the timelock path, with the flags of BIP112 spelled out: a version 2
      transaction whose input uses a block-height lock of at least `lockTime` blocks. */
  predicate LockExpired(env: Env, lockTime: uint16) {
    && env.version >= 2
    && env.sequence / 0x8000_0000 % 2 == 0
    && env.sequence / 0x40_0000 % 2 == 0
    && lockTime <= env.sequence % 0x1_0000
  }

  /** The timelock path accepts a witness exactly when it is one valid staker signature,
      the lock time is not zero and the lock has expired. */
  lemma TimeLockPathMeaning(env: Env, c: Group, staker: Point, lockTime: uint16, wit: seq<Bytes>)
    requires env.Valid() && c.Valid()
    ensures Accepts(env, TimeLockBytes(c.x(staker), lockTime), wit)
            <==> |wit| == 1 && env.SigOk(c.x(staker), wit[0]) && lockTime > 0 && LockExpired(env, lockTime)
  {
    hide Run, Decode, PushNum, EncodeNum, CastToBool, SingleKeyBytes;
    var key := c.x(staker);
    var tail := PushNum(lockTime) + [OP_CHECKSEQUENCEVERIFY];
    DecodePushNum(lockTime);
    DecodeSnoc(PushNum(lockTime), OP_CHECKSEQUENCEVERIFY);
    var ops := [Push(EncodeNum(lockTime)), CheckSequenceVerify];
    assert [Push(EncodeNum(lockTime))] + [CheckSequenceVerify] == ops;
    RunAfterStaker(env, key, tail, wit);
    TimeLockSplit(key, lockTime);
    if 1 <= |wit| < MaxStackSize {
      RunLock(env, lockTime, wit[..|wit| - 1]);
      EncodeNumTruth(lockTime);
    }
  }

  lemma TimeLockSplit(key: Bytes, lockTime: uint16)
    requires |key| == 32
    ensures SingleKeyBytes(key, true) + (PushNum(lockTime) + [OP_CHECKSEQUENCEVERIFY]) == TimeLockBytes(key, lockTime)
  {
    hide PushNum;
  }

  lemma RunLock(env: Env, lockTime: uint16, st: seq<Bytes>)
    requires |st| + 1 < MaxStackSize
    ensures Run(env, [Push(EncodeNum(lockTime)), CheckSequenceVerify], st)
            == if LockExpired(env, lockTime) then Some(st + [EncodeNum(lockTime)]) else None
  {
    MinimalLELen(lockTime, 2);
    DecodeEncodeNum(lockTime, 5);
    LockAllows(env, lockTime);
    hide DecodeNum, EncodeNum, Env.SequenceAllows, LockExpired;
    RunTwo(env, EncodeNum(lockTime), CheckSequenceVerify, st);
    assert Top(st + [EncodeNum(lockTime)], 0) == EncodeNum(lockTime);
  }

  lemma LockAllows(env: Env, lockTime: uint16)
    ensures env.SequenceAllows(lockTime) <==> LockExpired(env, lockTime)
  {
  }

  /** The same for the timelock path of a stake. */
  lemma TimeLockOfStake(env: Env, c: Group, staker: Point, fpKeys: seq<Point>, covenantKeys: seq<Point>,
                        quorum: uint32, lockTime: uint16, wit: seq<Bytes>)
    requires env.Valid() && c.Valid()
    requires ScriptPaths(c, staker, fpKeys, covenantKeys, quorum, lockTime).Ok?
    ensures Accepts(env, ScriptPaths(c, staker, fpKeys, covenantKeys, quorum, lockTime).value.timeLock, wit)
            <==> |wit| == 1 && env.SigOk(c.x(staker), wit[0]) && lockTime > 0 && LockExpired(env, lockTime)
  {
    hide Accepts, Env.SigOk, LockExpired, MultiSigScript, Distinct, AllStakeKeys, TimeLockBytes;
    TimeLockPathMeaning(env, c, staker, lockTime, wit);
  }
}
