/** Witness stacks for the spending paths (btcstaking/witness_utils.go). */
module Witness {
  import opened Prelude
  import opened Curve
  import opened Taproot
  import opened Bip340

  datatype Error = NoCovenantSignatures | NoProviderSignatures | NoDelegatorSignature

  type Slot = Option<Signature>

  predicate Serializable(sigs: seq<Slot>) {
    forall i :: 0 <= i < |sigs| ==> SlotOk(sigs[i])
  }

  predicate SlotOk(sig: Slot) {
    sig.Some? ==> |sig.value.r| == CoordinateLen
  }

  /** The stack items of a list of optional signatures; a missing one is an empty item. */
  function Slots(c: Group, sigs: seq<Slot>): (items: seq<Bytes>)
    requires Serializable(sigs)
    ensures |items| == |sigs|
    ensures forall i :: 0 <= i < |sigs| ==>
              items[i] == if sigs[i].None? then [] else Serialize(c, sigs[i].value)
  {
    seq(|sigs|, i requires 0 <= i < |sigs| => if sigs[i].None? then [] else Serialize(c, sigs[i].value))
  }

  method AppendSlots(c: Group, stack: seq<Bytes>, sigs: seq<Slot>) returns (res: seq<Bytes>)
    requires Serializable(sigs)
    ensures res == stack + Slots(c, sigs)
  {
    res := stack;
    for i := 0 to |sigs|
      invariant res == stack + Slots(c, sigs)[..i]
    {
      if sigs[i].None? {
        res := res + [[]];
      } else {
        res := res + [Serialize(c, sigs[i].value)];
      }
    }
  }

  /** Signatures, then the revealed script, then the control block. */
  method CreateWitness(si: SpendInfo, signatures: seq<Bytes>) returns (res: seq<Bytes>)
    ensures res == signatures + [si.revealedLeaf, si.controlBlock]
  {
    var numSignatures := |signatures|;
    var witnessStack := new Bytes[numSignatures + 2](_ => []);
    for i := 0 to numSignatures
      invariant witnessStack[..i] == signatures[..i]
    {
      witnessStack[i] := signatures[i];
    }
    witnessStack[numSignatures] := si.revealedLeaf;
    witnessStack[numSignatures + 1] := si.controlBlock;
    res := witnessStack[..];
  }

  function TimeLockWitness(c: Group, si: SpendInfo, delegatorSig: Slot): (res: Result<seq<Bytes>, Error>)
    requires SlotOk(delegatorSig)
  {
    match delegatorSig
    case None => Err(NoDelegatorSignature)
    case Some(sig) => Ok([Serialize(c, sig), si.revealedLeaf, si.controlBlock])
  }

  method CreateTimeLockPathWitness(c: Group, si: SpendInfo, delegatorSig: Slot)
    returns (res: Result<seq<Bytes>, Error>)
    requires SlotOk(delegatorSig)
    ensures res == TimeLockWitness(c, si, delegatorSig)
  {
    if delegatorSig.None? {
      return Err(NoDelegatorSignature);
    }
    var w := CreateWitness(si, [Serialize(c, delegatorSig.value)]);
    assert w == [Serialize(c, delegatorSig.value), si.revealedLeaf, si.controlBlock];
    return Ok(w);
  }

  function UnbondingWitness(c: Group, si: SpendInfo, covenantSigs: seq<Slot>, delegatorSig: Slot)
    : (res: Result<seq<Bytes>, Error>)
    requires Serializable(covenantSigs) && SlotOk(delegatorSig)
  {
    if |covenantSigs| == 0 then Err(NoCovenantSignatures)
    else if delegatorSig.None? then Err(NoDelegatorSignature)
    else
        Ok(Slots(c, covenantSigs) + [Serialize(c, delegatorSig.value)] + [si.revealedLeaf, si.controlBlock])
  }

  method CreateUnbondingPathWitness(c: Group, si: SpendInfo, covenantSigs: seq<Slot>, delegatorSig: Slot)
    returns (res: Result<seq<Bytes>, Error>)
    requires Serializable(covenantSigs) && SlotOk(delegatorSig)
    ensures res == UnbondingWitness(c, si, covenantSigs, delegatorSig)
  {
    var stack: seq<Bytes> := [];
    if |covenantSigs| == 0 {
      return Err(NoCovenantSignatures);
    }
    stack := AppendSlots(c, stack, covenantSigs);
    assert stack == Slots(c, covenantSigs);
    if delegatorSig.None? {
      return Err(NoDelegatorSignature);
    }
    stack := stack + [Serialize(c, delegatorSig.value)];
    var w := CreateWitness(si, stack);
    return Ok(w);
  }

  function SlashingWitness(c: Group, si: SpendInfo, covenantSigs: seq<Slot>, fpSigs: seq<Slot>, delegatorSig: Slot)
    : (res: Result<seq<Bytes>, Error>)
    requires Serializable(covenantSigs) && Serializable(fpSigs) && SlotOk(delegatorSig)
  {
    if |covenantSigs| == 0 then Err(NoCovenantSignatures)
    else if |fpSigs| == 0 then Err(NoProviderSignatures)
    else if delegatorSig.None? then Err(NoDelegatorSignature)
    else
        Ok(Slots(c, covenantSigs) + Slots(c, fpSigs) + [Serialize(c, delegatorSig.value)]
         + [si.revealedLeaf, si.controlBlock])
  }

  method CreateSlashingPathWitness(c: Group, si: SpendInfo, covenantSigs: seq<Slot>, fpSigs: seq<Slot>, delegatorSig: Slot)
    returns (res: Result<seq<Bytes>, Error>)
    requires Serializable(covenantSigs) && Serializable(fpSigs) && SlotOk(delegatorSig)
    ensures res == SlashingWitness(c, si, covenantSigs, fpSigs, delegatorSig)
  {
    var stack: seq<Bytes> := [];
    if |covenantSigs| == 0 {
      return Err(NoCovenantSignatures);
    }
    stack := AppendSlots(c, stack, covenantSigs);
    assert stack == Slots(c, covenantSigs);
    if |fpSigs| == 0 {
      return Err(NoProviderSignatures);
    }
    stack := AppendSlots(c, stack, fpSigs);
    if delegatorSig.None? {
      return Err(NoDelegatorSignature);
    }
    stack := stack + [Serialize(c, delegatorSig.value)];
    var w := CreateWitness(si, stack);
    return Ok(w);
  }
}
