/** The whole chain: a provider that signs twice with one randomness can be slashed. */
module SlashingEndToEnd {
  import opened Prelude
  import opened Curve
  import opened Keys
  import opened Script
  import opened StakingScripts
  import opened ScriptMeaning
  import opened Slashing
  import opened Taproot
  import opened Witness
  import AC = AdaptorCodec
  import AS = AdaptorSignature
  import B = Bip340
  import Eots
  import StableSort

  // ----- signatures on the spending transaction -----

  /** BIP341 signatures: 64 bytes over the default signature hash, or one more byte with an
      explicit hash type.  `sighash` gives the message for each hash type. */
  predicate ValidTapSig(c: Group, sighash: byte -> Bytes, key: Bytes, sig: Bytes) {
    && c.n > 0
    && (|| (|sig| == 64 && B.Verifies(c, key, sighash(0), B.Parse(sig)))
        || (|sig| == 65 && sig[64] in {0x01, 0x02, 0x03, 0x81, 0x82, 0x83}
            && B.Verifies(c, key, sighash(sig[64]), B.Parse(sig[..64]))))
  }

  function SpendEnv(c: Group, sighash: byte -> Bytes, version: nat, sequence: nat): (env: Env)
    ensures env.Valid()
  {
    Env((key: Bytes, sig: Bytes) => ValidTapSig(c, sighash, key, sig), version, sequence)
  }

  lemma SerializedSigOk(c: Group, sighash: byte -> Bytes, version: nat, sequence: nat, key: Bytes, sig: B.Signature)
    requires c.Valid() && B.Verifies(c, key, sighash(0), sig) && |sig.r| == CoordinateLen
    ensures SpendEnv(c, sighash, version, sequence).SigOk(key, B.Serialize(c, sig))
  {
    B.ParseSerialize(c, sig);
  }

  // ----- what the chain stores -----

  /** A covenant entry as the chain accepts it: the signature for provider `fpIdx` parses and
      verifies under the provider's encryption key. */
  ghost predicate GoodEntry(c: Group, entry: CovenantAdaptorSigs, fpIdx: nat, msg: Bytes, ek: Point)
    requires c.Valid() && c.IsPoint(ek)
  {
    && fpIdx < |entry.adaptorSigs|
    && var parsed := AC.NewAdaptorSignatureFromBytes(c, entry.adaptorSigs[fpIdx]);
       && parsed.Ok?
       && AC.Encodable(c, parsed.value)
       && AS.EncAccepts(c, parsed.value, msg, entry.covPk, ek)
  }

  /** Every entry is good and from a committee member, and no member appears twice. */
  ghost predicate GoodEntries(c: Group, list: seq<CovenantAdaptorSigs>, committee: seq<Bytes>,
                              fpIdx: nat, msg: Bytes, ek: Point)
    requires c.Valid() && c.IsPoint(ek)
  {
    && (forall i :: 0 <= i < |list| ==> list[i].covPk in committee && GoodEntry(c, list[i], fpIdx, msg, ek))
    && (forall i, j :: 0 <= i < j < |list| ==> list[i].covPk != list[j].covPk)
  }

  /** A map from covenant keys to accepted pre-signatures. */
  ghost predicate GoodMap(c: Group, m: SigMap, committee: seq<Bytes>, msg: Bytes, ek: Point)
    requires c.Valid() && c.IsPoint(ek)
  {
    forall k :: k in m ==> k in committee && AC.Encodable(c, m[k]) && AS.EncAccepts(c, m[k], msg, k, ek)
  }

  lemma {:induction false} StoredMap(c: Group, list: seq<CovenantAdaptorSigs>, committee: seq<Bytes>,
                                     fpIdx: nat, msg: Bytes, ek: Point)
    requires c.Valid() && c.IsPoint(ek) && GoodEntries(c, list, committee, fpIdx, msg, ek)
    ensures CovSigsMap(c, fpIdx, list).Ok?
    ensures var m := CovSigsMap(c, fpIdx, list).value;
            GoodMap(c, m, committee, msg, ek) && |m| == |list| && m.Keys == StoredKeys(list)
  {
    hide Group.Valid, Group.IsPoint;
    Sizes(c, ek);
    if list != [] {
      hide GoodEntries, GoodEntry, StoredKeys, GoodMap, CovSigsMap;
      var front, last := list[..|list| - 1], list[|list| - 1];
      GoodEntriesSnoc(c, list, committee, fpIdx, msg, ek);
      StoredMap(c, front, committee, fpIdx, msg, ek);
      StoredEntry(c, list, committee, fpIdx, msg, ek);
      var m, m' := CovSigsMap(c, fpIdx, front).value, CovSigsMap(c, fpIdx, list).value;
      assert m'.Keys == m.Keys + {last.covPk};
    }
  }

  /** One more good entry extends the map by one accepted pre-signature. */
  lemma StoredEntry(c: Group, list: seq<CovenantAdaptorSigs>, committee: seq<Bytes>, fpIdx: nat, msg: Bytes, ek: Point)
    requires c.Valid() && c.IsPoint(ek) && list != []
    requires GoodEntry(c, list[|list| - 1], fpIdx, msg, ek) && list[|list| - 1].covPk in committee
    requires CovSigsMap(c, fpIdx, list[..|list| - 1]).Ok?
    requires GoodMap(c, CovSigsMap(c, fpIdx, list[..|list| - 1]).value, committee, msg, ek)
    ensures CovSigsMap(c, fpIdx, list).Ok?
    ensures var m, m' := CovSigsMap(c, fpIdx, list[..|list| - 1]).value, CovSigsMap(c, fpIdx, list).value;
            GoodMap(c, m', committee, msg, ek) && m'.Keys == m.Keys + {list[|list| - 1].covPk}
  {
    hide AC.NewAdaptorSignatureFromBytes, AS.EncAccepts, AC.Encodable, Group.Valid, Group.IsPoint;
    Sizes(c, ek);
    var last := list[|list| - 1];
    var m, sig := CovSigsMap(c, fpIdx, list[..|list| - 1]).value,
                  AC.NewAdaptorSignatureFromBytes(c, last.adaptorSigs[fpIdx]).value;
    assert CovSigsMap(c, fpIdx, list) == Ok(m[last.covPk := sig]);
  }

  function StoredKeys(list: seq<CovenantAdaptorSigs>): (keys: set<Bytes>) {
    set i | 0 <= i < |list| :: list[i].covPk
  }

  lemma GoodEntriesSnoc(c: Group, list: seq<CovenantAdaptorSigs>, committee: seq<Bytes>,
                        fpIdx: nat, msg: Bytes, ek: Point)
    requires c.Valid() && c.IsPoint(ek) && list != [] && GoodEntries(c, list, committee, fpIdx, msg, ek)
    ensures var front, last := list[..|list| - 1], list[|list| - 1];
            && GoodEntries(c, front, committee, fpIdx, msg, ek)
            && GoodEntry(c, last, fpIdx, msg, ek) && last.covPk in committee
            && StoredKeys(list) == StoredKeys(front) + {last.covPk} && last.covPk !in StoredKeys(front)
  {
    hide GoodEntry, Group.Valid, Group.IsPoint;
    var front := list[..|list| - 1];
    assert forall i :: 0 <= i < |front| ==> front[i] == list[i];
  }

  // ----- counting the filled slots -----

  lemma {:induction false} CountPicks(pks: seq<Bytes>, m: SigMap)
    requires Distinct(pks)
    ensures CountSome(PickSigs(pks, m)) == |set k | k in m && k in pks|
  {
    var hits := set k | k in m && k in pks;
    if pks == [] {
      assert hits == {};
    } else {
      var rest := pks[1..];
      CountPicks(rest, m);
      assert PickSigs(pks, m)[1..] == PickSigs(rest, m);
      var restHits := set k | k in m && k in rest;
      assert forall i :: 0 <= i < |rest| ==> rest[i] == pks[i + 1];
      assert pks[0] !in rest;
      assert forall k :: k in pks <==> k == pks[0] || k in rest;
      if pks[0] in m {
        assert hits == restHits + {pks[0]};
      } else {
        assert hits == restHits;
      }
    }
  }

  lemma SortKeepsDistinct(pks: seq<Bytes>)
    requires Distinct(pks)
    ensures Distinct(SortBIP340PKs(pks))
    ensures |SortBIP340PKs(pks)| == |pks|
    ensures forall k :: k in pks <==> k in SortBIP340PKs(pks)
  {
    StableSort.SortMembers(LexGreater, pks);
    DistinctCanonical(pks, SortBIP340PKs(pks));
    assert forall k :: k in pks <==> k in multiset(pks);
    assert forall k :: k in SortBIP340PKs(pks) <==> k in multiset(SortBIP340PKs(pks));
  }

  lemma {:induction false} CountSlots(c: Group, slots: seq<Slot>)
    requires Serializable(slots)
    ensures CountSigs(Slots(c, slots)) == CountSome(slots)
  {
    if slots != [] {
      assert forall i :: 0 <= i < |slots[1..]| ==> slots[1..][i] == slots[i + 1];
      CountSlots(c, slots[1..]);
      assert Slots(c, slots)[1..] == Slots(c, slots[1..]);
    }
  }

  lemma {:induction false} CountOneSlot(n: nat, idx: nat, sig: B.Signature)
    requires idx < n
    ensures CountSome(OneSlot(n, idx, sig)) == 1
  {
    if idx == 0 {
      CountThenNones<B.Signature>([], n - 1);
      assert [] + Nones<B.Signature>(n - 1) == Nones(n - 1);
      assert OneSlot(n, 0, sig)[1..] == Nones(n - 1);
    } else {
      CountOneSlot(n - 1, idx - 1, sig);
      assert OneSlot(n, idx, sig)[1..] == OneSlot(n - 1, idx - 1, sig);
    }
  }

  // ----- each part of the witness -----

  /** Slots in descending key order whose signatures verify fit a multisig that consumes
      them from the top in ascending key order. */
  lemma SlotsFit(c: Group, sighash: byte -> Bytes, version: nat, sequence: nat, keys: seq<Point>, slots: seq<Slot>)
    requires c.Valid() && |slots| == |keys| && Serializable(slots)
    requires |SortBIP340PKs(XOnly(c, keys))| == |keys|
    requires forall i :: 0 <= i < |slots| && slots[i].Some? ==>
               B.Verifies(c, SortBIP340PKs(XOnly(c, keys))[i], sighash(0), slots[i].value)
    ensures SigsFit(SpendEnv(c, sighash, version, sequence), XOnly(c, SortKeys(c, keys)), Slots(c, slots))
  {
    hide B.Verifies, ValidTapSig, Env.SigOk, SpendEnv, B.Serialize, Group.Valid, SortBIP340PKs, SortKeys;
    var up, down := XOnly(c, SortKeys(c, keys)), SortBIP340PKs(XOnly(c, keys));
    SortBIP340PKsMirrorsSortKeys(c, keys);
    var env, sigs := SpendEnv(c, sighash, version, sequence), Slots(c, slots);
    forall i | 0 <= i < |sigs|
      ensures sigs[i] == [] || env.SigOk(up[|up| - 1 - i], sigs[i])
    {
      if slots[i].Some? {
        assert down[i] == up[|up| - 1 - i];
        SerializedSigOk(c, sighash, version, sequence, down[i], slots[i].value);
      }
    }
  }

  /** The covenant slots of the witness: exactly a quorum, all valid. */
  lemma CovenantPart(c: Group, sighash: byte -> Bytes, version: nat, sequence: nat,
                     covenantKeys: seq<Point>, m: SigMap, dk: nat, quorum: nat)
    requires c.Valid() && c.IsScalar(dk) && Distinct(XOnly(c, covenantKeys))
    requires GoodMap(c, m, XOnly(c, covenantKeys), sighash(0), c.Base(dk)) && 1 <= quorum <= |m|
    ensures var sigs := PickSigs(SortBIP340PKs(XOnly(c, covenantKeys)), m);
            && PreSigsOk(c, sigs) && |sigs| == |covenantKeys|
            && DecryptQuorum(c, sigs, dk, quorum, 0).Ok?
            && var slots := DecryptQuorum(c, sigs, dk, quorum, 0).value;
               && |slots| == |covenantKeys| && Serializable(slots) && CountSome(slots) == quorum
               && Satisfied(SpendEnv(c, sighash, version, sequence), XOnly(c, SortKeys(c, covenantKeys)),
                            Slots(c, slots), quorum)
  {
    hide AS.EncAccepts, AS.Decrypted, B.Verifies, DecryptQuorum, SigsFit, SortBIP340PKs, SortKeys, SpendEnv,
      Distinct, Slots, Group.Valid, AC.Encodable, CountSome, CountSigs;
    var committee := XOnly(c, covenantKeys);
    var pks := SortBIP340PKs(committee);
    var sigs := PickSigs(pks, m);
    SortKeepsDistinct(committee);
    CountPicks(pks, m);
    assert (set k | k in m && k in pks) == m.Keys;
    PicksDecryptable(c, m, committee, pks, sighash(0), dk);
    DecryptQuorumExact(c, sigs, dk, quorum, 0);
    DecryptQuorumSlots(c, sigs, dk, quorum, 0);
    var slots := DecryptQuorum(c, sigs, dk, quorum, 0).value;
    forall i | 0 <= i < |slots| && slots[i].Some?
      ensures B.Verifies(c, pks[i], sighash(0), slots[i].value)
    {
      AS.DecryptVerifies(c, sigs[i].value, sighash(0), pks[i], dk);
    }
    SlotsFit(c, sighash, version, sequence, covenantKeys, slots);
    CountSlots(c, slots);
  }

  lemma PicksDecryptable(c: Group, m: SigMap, committee: seq<Bytes>, pks: seq<Bytes>, msg: Bytes, dk: nat)
    requires c.Valid() && c.IsScalar(dk) && GoodMap(c, m, committee, msg, c.Base(dk)) && m != map[]
    ensures dk != 0
    ensures forall i :: 0 <= i < |pks| && PickSigs(pks, m)[i].Some? ==>
              var psig := PickSigs(pks, m)[i].value;
              && pks[i] in m && psig == m[pks[i]]
              && c.IsScalar(psig.s) && psig.s != 0 && c.IsPoint(psig.R0)
              && AS.EncAccepts(c, psig, msg, pks[i], c.Base(dk))
  {
    hide AS.EncAccepts;
    assert m.Keys != {};
    var k :| k in m;
    AcceptedIsNonzero(c, m[k], msg, k, dk);
    forall i | 0 <= i < |pks| && pks[i] in m
      ensures m[pks[i]].s != 0 && c.IsPoint(m[pks[i]].R0)
    {
      AcceptedIsNonzero(c, m[pks[i]], msg, pks[i], dk);
    }
  }

  lemma AcceptedIsNonzero(c: Group, psig: AS.PreSignature, m: Bytes, pk: Bytes, dk: nat)
    requires c.Valid() && AC.Encodable(c, psig) && c.IsScalar(dk) && AS.EncAccepts(c, psig, m, pk, c.Base(dk))
    ensures dk != 0 && psig.s != 0 && c.IsPoint(psig.R0)
  {
  }

  /** The provider slots of the witness: one valid signature in the right place. */
  lemma ProviderPart(c: Group, sighash: byte -> Bytes, version: nat, sequence: nat,
                     fpKeys: seq<Point>, sk: nat, nonce: nat)
    requires c.Valid() && c.IsScalar(sk) && sk != 0 && c.IsScalar(nonce) && nonce != 0
    requires Distinct(XOnly(c, fpKeys)) && c.x(c.Base(sk)) in XOnly(c, fpKeys)
    ensures B.Sign(c, sk, nonce, sighash(0)).Some?
    ensures var idx := IndexOf(SortBIP340PKs(XOnly(c, fpKeys)), c.x(c.Base(sk)));
            && idx < |SortBIP340PKs(XOnly(c, fpKeys))| == |fpKeys|
            && var slots := OneSlot(|fpKeys|, idx, B.Sign(c, sk, nonce, sighash(0)).value);
               && Serializable(slots)
               && Satisfied(SpendEnv(c, sighash, version, sequence), XOnly(c, SortKeys(c, fpKeys)), Slots(c, slots), 1)
  {
    var pks := XOnly(c, fpKeys);
    var sorted := SortBIP340PKs(pks);
    SortKeepsDistinct(pks);
    B.SignVerifies(c, sk, nonce, sighash(0));
    hide B.Verifies, B.Sign, SigsFit, LexGreater;
    var idx := IndexOf(sorted, c.x(c.Base(sk)));
    var sig := B.Sign(c, sk, nonce, sighash(0)).value;
    var slots := OneSlot(|fpKeys|, idx, sig);
    SignLen(c, sk, nonce, sighash(0));
    SlotsFit(c, sighash, version, sequence, fpKeys, slots);
    CountSlots(c, slots);
    CountOneSlot(|fpKeys|, idx, sig);
  }

  lemma SignLen(c: Group, sk: nat, nonce: nat, m: Bytes)
    requires c.Valid() && c.IsScalar(sk) && c.IsScalar(nonce) && B.Sign(c, sk, nonce, m).Some?
    ensures |B.Sign(c, sk, nonce, m).value.r| == CoordinateLen
  {
  }

  // ----- the theorem -----

  /** What the script compiler has checked about the keys of a stake. */
  lemma PathsFacts(c: Group, staker: Point, fpKeys: seq<Point>, covenantKeys: seq<Point>, quorum: uint32, lockTime: uint16)
    requires c.Valid() && ScriptPaths(c, staker, fpKeys, covenantKeys, quorum, lockTime).Ok?
    ensures Distinct(XOnly(c, fpKeys)) && Distinct(XOnly(c, covenantKeys))
    ensures |fpKeys| > 0 && |covenantKeys| > 0 && quorum <= |covenantKeys|
  {
    MultiSigScriptLen(c, covenantKeys, quorum, false);
    MultiSigScriptLen(c, fpKeys, 1, true);
    hide Distinct, AllStakeKeys, MultiSigScript, Group.Valid;
    DistinctParts(c, staker, fpKeys, covenantKeys);
  }

  lemma DistinctParts(c: Group, staker: Point, fpKeys: seq<Point>, covenantKeys: seq<Point>)
    requires Distinct(AllStakeKeys(c, staker, fpKeys, covenantKeys))
    ensures Distinct(XOnly(c, fpKeys)) && Distinct(XOnly(c, covenantKeys))
  {
    var all := AllStakeKeys(c, staker, fpKeys, covenantKeys);
    assert forall i :: 0 <= i < |fpKeys| ==> all[1 + i] == XOnly(c, fpKeys)[i];
    assert forall i :: 0 <= i < |covenantKeys| ==> all[1 + |fpKeys| + i] == XOnly(c, covenantKeys)[i];
  }

  /** With the secret key of any one provider of a stake, the stored covenant signatures for
      that provider and the staker's signature make a witness that the slashing path accepts. */
  lemma KeyUnlocksSlashing(c: Group, staker: Point, fpKeys: seq<Point>, covenantKeys: seq<Point>,
                           quorum: uint32, lockTime: uint16, sk: nat, m: SigMap, stakerSig: B.Signature,
                           si: SpendInfo, nonce: nat, sighash: byte -> Bytes, version: nat, sequence: nat)
    requires c.Valid() && ScriptPaths(c, staker, fpKeys, covenantKeys, quorum, lockTime).Ok?
    requires c.IsScalar(sk) && sk != 0 && c.x(c.Base(sk)) in XOnly(c, fpKeys)
    requires c.IsScalar(nonce) && nonce != 0
    requires |stakerSig.r| == CoordinateLen && B.Verifies(c, c.x(staker), sighash(0), stakerSig)
    requires GoodMap(c, m, XOnly(c, covenantKeys), sighash(0), c.Base(AS.DecryptionKey(c, sk)))
    requires 1 <= quorum <= |m|
    ensures var sigs := PickSigs(SortBIP340PKs(XOnly(c, covenantKeys)), m);
            && PreSigsOk(c, sigs)
            && var w := WitnessFromKey(c, sk, XOnly(c, fpKeys), stakerSig, sigs, quorum, si, sighash(0), nonce);
               && w.Ok? && |w.value| >= 2
               && w.value[|w.value| - 2..] == [si.revealedLeaf, si.controlBlock]
               && Accepts(SpendEnv(c, sighash, version, sequence),
                          ScriptPaths(c, staker, fpKeys, covenantKeys, quorum, lockTime).value.slashing,
                          w.value[..|w.value| - 2])
  {
    hide Accepts, AS.EncAccepts, B.Verifies, B.Sign, DecryptQuorum, Satisfied, Distinct, LexGreater, ValidTapSig,
      Env.SigOk, MultiSigScript, ScriptPaths, WitnessFromKey, GoodMap, SortBIP340PKs, SortKeys, Group.Valid, SpendEnv,
      B.Serialize, Slots, OneSlot, CountSome;
    PathsFacts(c, staker, fpKeys, covenantKeys, quorum, lockTime);
    var env, dk := SpendEnv(c, sighash, version, sequence), AS.DecryptionKey(c, sk);
    CovenantPart(c, sighash, version, sequence, covenantKeys, m, dk, quorum);
    ProviderPart(c, sighash, version, sequence, fpKeys, sk, nonce);
    SerializedSigOk(c, sighash, version, sequence, c.x(staker), stakerSig);
    var sigs := PickSigs(SortBIP340PKs(XOnly(c, covenantKeys)), m);
    var slots := DecryptQuorum(c, sigs, dk, quorum, 0).value;
    var idx := IndexOf(SortBIP340PKs(XOnly(c, fpKeys)), c.x(c.Base(sk)));
    var fpSlots := OneSlot(|fpKeys|, idx, B.Sign(c, sk, nonce, sighash(0)).value);
    var stack := Slots(c, slots) + Slots(c, fpSlots) + [B.Serialize(c, stakerSig)];
    WitnessShape(c, sk, XOnly(c, fpKeys), stakerSig, sigs, quorum, si, sighash(0), nonce);
    StackAccepted(env, c, staker, fpKeys, covenantKeys, quorum, lockTime,
                  Slots(c, slots), Slots(c, fpSlots), B.Serialize(c, stakerSig));
    assert (stack + [si.revealedLeaf, si.controlBlock])[..|stack|] == stack;
  }

  /** A witness whose parts are in order comes out as the parts one after the other. */
  lemma WitnessShape(c: Group, sk: nat, pks: seq<Bytes>, stakerSig: B.Signature,
                     sigs: seq<Option<AS.PreSignature>>, quorum: uint32, si: SpendInfo, msg: Bytes, nonce: nat)
    requires c.Valid() && c.IsScalar(sk) && sk != 0 && c.IsScalar(nonce) && PreSigsOk(c, sigs)
    requires |stakerSig.r| == CoordinateLen && |sigs| > 0 && |pks| > 0
    requires DecryptQuorum(c, sigs, AS.DecryptionKey(c, sk), quorum, 0).Ok?
    requires CountSome(DecryptQuorum(c, sigs, AS.DecryptionKey(c, sk), quorum, 0).value) == quorum
    requires c.x(c.Base(sk)) in SortBIP340PKs(pks) && B.Sign(c, sk, nonce, msg).Some?
    ensures var slots := DecryptQuorum(c, sigs, AS.DecryptionKey(c, sk), quorum, 0).value;
            var fpSlots := OneSlot(|pks|, IndexOf(SortBIP340PKs(pks), c.x(c.Base(sk))), B.Sign(c, sk, nonce, msg).value);
            && Serializable(slots) && Serializable(fpSlots)
            && WitnessFromKey(c, sk, pks, stakerSig, sigs, quorum, si, msg, nonce)
               == Ok(Slots(c, slots) + Slots(c, fpSlots) + [B.Serialize(c, stakerSig)] + [si.revealedLeaf, si.controlBlock])
  {
    SignLen(c, sk, nonce, msg);
    DecryptQuorumSlots(c, sigs, AS.DecryptionKey(c, sk), quorum, 0);
    hide B.Sign, DecryptQuorum, SortBIP340PKs, AS.DecryptionKey, B.Serialize;
  }

  lemma StackAccepted(env: Env, c: Group, staker: Point, fpKeys: seq<Point>, covenantKeys: seq<Point>,
                      quorum: uint32, lockTime: uint16, covSlots: seq<Bytes>, fpSlots: seq<Bytes>, sig: Bytes)
    requires env.Valid() && c.Valid() && ScriptPaths(c, staker, fpKeys, covenantKeys, quorum, lockTime).Ok?
    requires |covSlots| == |covenantKeys| && |fpSlots| == |fpKeys| && 1 <= quorum
    requires env.SigOk(c.x(staker), sig)
    requires Satisfied(env, XOnly(c, SortKeys(c, fpKeys)), fpSlots, 1)
    requires Satisfied(env, XOnly(c, SortKeys(c, covenantKeys)), covSlots, quorum)
    ensures Accepts(env, ScriptPaths(c, staker, fpKeys, covenantKeys, quorum, lockTime).value.slashing,
                    covSlots + fpSlots + [sig])
  {
    hide Accepts, Satisfied, ScriptPaths, Env.SigOk, Group.Valid;
    PathsFacts(c, staker, fpKeys, covenantKeys, quorum, lockTime);
    var stack, m, f := covSlots + fpSlots + [sig], |covenantKeys|, |fpKeys|;
    assert stack[..m] == covSlots && stack[m..m + f] == fpSlots;
    SlashingPathMeaning(env, c, staker, fpKeys, covenantKeys, quorum, lockTime, stack);
  }

  /** The encryption key made from the X-only form of a key belongs to the decryption key made
      from its secret. */
  lemma LiftedKeyPair(c: Group, p: Point)
    requires c.Valid() && c.IsKey(p)
    ensures AS.NewEncryptionKeyFromPoint(c, c.EvenOf(p)) == Ok(c.Base(AS.DecryptionKey(c, p.log)))
  {
    LiftOfX(c, p);
    AS.KeyPairMatches(c, p.log);
  }

  /** A provider that has two signatures accepted under one key and one randomness, with
      different challenges, can be slashed: the extracted key decrypts the stored covenant
      signatures, at least a quorum of which were accepted under the provider's encryption
      key, into a witness that the slashing path of the stake accepts. */
  lemma DoubleSigningIsSlashable(
    c: Group, staker: Point, fpKeys: seq<Point>, covenantKeys: seq<Point>, quorum: uint32, lockTime: uint16,
    fp: Point, r: Bytes, h1: Bytes, s1: nat, h2: Bytes, s2: nat,
    ek: Point, list: seq<CovenantAdaptorSigs>, stakerSig: B.Signature,
    si: SpendInfo, nonce: nat, sighash: byte -> Bytes, version: nat, sequence: nat)
    requires c.Valid() && ScriptPaths(c, staker, fpKeys, covenantKeys, quorum, lockTime).Ok?
    // the double signature
    requires c.IsKey(fp) && c.x(fp) in XOnly(c, fpKeys) && c.IsScalar(s1) && c.IsScalar(s2)
    requires Eots.Accepts(c, c.x(fp), r, h1, s1) && Eots.Accepts(c, c.x(fp), r, h2, s2)
    requires c.hash(r, c.x(fp), h1) != c.hash(r, c.x(fp), h2)
    // what the chain stores with the stake
    requires c.lift(c.x(fp)).Some? && c.IsPoint(c.lift(c.x(fp)).value)
    requires AS.NewEncryptionKeyFromPoint(c, c.lift(c.x(fp)).value) == Ok(ek)
    requires GoodEntries(c, list, XOnly(c, covenantKeys), IndexOf(XOnly(c, fpKeys), c.x(fp)), sighash(0), ek)
    requires 1 <= quorum <= |list|
    requires |stakerSig.r| == CoordinateLen && B.Verifies(c, c.x(staker), sighash(0), stakerSig)
    requires c.IsScalar(nonce) && nonce != 0
    ensures var key := Eots.ExtractKey(c, fp, r, h1, s1, h2, s2);
            && key.Ok?
            && var m := CovSigsMap(c, IndexOf(XOnly(c, fpKeys), c.x(c.Base(key.value))), list);
               && m.Ok?
               && var sigs := PickSigs(SortBIP340PKs(XOnly(c, covenantKeys)), m.value);
                  && PreSigsOk(c, sigs)
                  && var w := WitnessFromKey(c, key.value, XOnly(c, fpKeys), stakerSig, sigs, quorum, si, sighash(0), nonce);
                     && w.Ok? && |w.value| >= 2
                     && w.value[|w.value| - 2..] == [si.revealedLeaf, si.controlBlock]
                     && Accepts(SpendEnv(c, sighash, version, sequence),
                                ScriptPaths(c, staker, fpKeys, covenantKeys, quorum, lockTime).value.slashing,
                                w.value[..|w.value| - 2])
  {
    hide Accepts, Eots.Accepts, Eots.ExtractKey, AS.EncAccepts, B.Verifies, WitnessFromKey, CovSigsMap, ScriptPaths, LexGreater,
      Group.Valid, GoodEntry, GoodMap, PreSigsOk, SortBIP340PKs, SpendEnv, Distinct, AS.NewEncryptionKeyFromPoint, AS.DecryptionKey;
    Eots.ExtractionSound(c, fp, r, h1, s1, h2, s2);
    LiftOfX(c, fp);
    LiftedKeyPair(c, fp);
    var fpIdx := IndexOf(XOnly(c, fpKeys), c.x(fp));
    StoredMap(c, list, XOnly(c, covenantKeys), fpIdx, sighash(0), ek);
    KeyUnlocksSlashing(c, staker, fpKeys, covenantKeys, quorum, lockTime, fp.log,
                       CovSigsMap(c, fpIdx, list).value, stakerSig, si, nonce, sighash, version, sequence);
  }

  method FindFPIdx(fpBtcPkList: seq<Bytes>, fpBTCPK: Bytes) returns (idx: Option<nat>)
    ensures idx == if fpBTCPK in fpBtcPkList then Some(IndexOf(fpBtcPkList, fpBTCPK)) else None
  {
    for i := 0 to |fpBtcPkList|
      invariant forall j :: 0 <= j < i ==> fpBtcPkList[j] != fpBTCPK
    {
      if fpBtcPkList[i] == fpBTCPK {
        return Some(i);
      }
    }
    return None;
  }

  /** The same from end to end on the code: the staking output is built, the key is extracted
      from the two signatures, and the witness made with it spends that output: it reveals the
      slashing script with its control block and satisfies it. */
  method SlashDoubleSigner(
    tp: Taproot, c: Group, staker: Point, fpKeys: seq<Point>, covenantKeys: seq<Point>, quorum: uint32,
    stakingTime: uint16, amount: int, fp: Point, r: Bytes, h1: Bytes, sig1: Eots.ModNScalar, h2: Bytes, sig2: Eots.ModNScalar,
    ghost ek: Point, list: seq<CovenantAdaptorSigs>, stakerSig: B.Signature,
    nonce: nat, blind: nat, sighash: byte -> Bytes, ghost version: nat, ghost sequence: nat)
    returns (out: TxOut, wit: seq<Bytes>)
    requires tp.Valid() && c.Valid() && ScriptPaths(c, staker, fpKeys, covenantKeys, quorum, stakingTime).Ok?
    requires c.IsKey(fp) && c.x(fp) in XOnly(c, fpKeys)
    requires sig1.Valid() && sig2.Valid() && sig1.n == sig2.n == c.n
    requires Eots.Accepts(c, c.x(fp), r, h1, sig1.v) && Eots.Accepts(c, c.x(fp), r, h2, sig2.v)
    requires c.hash(r, c.x(fp), h1) != c.hash(r, c.x(fp), h2)
    requires c.lift(c.x(fp)).Some? && c.IsPoint(c.lift(c.x(fp)).value)
    requires AS.NewEncryptionKeyFromPoint(c, c.lift(c.x(fp)).value) == Ok(ek)
    requires GoodEntries(c, list, XOnly(c, covenantKeys), IndexOf(XOnly(c, fpKeys), c.x(fp)), sighash(0), ek)
    requires 1 <= quorum <= |list|
    requires |stakerSig.r| == CoordinateLen && B.Verifies(c, c.x(staker), sighash(0), stakerSig)
    requires c.IsScalar(nonce) && nonce != 0
    modifies sig2
    ensures |wit| >= 2
    ensures wit[|wit| - 2] == ScriptPaths(c, staker, fpKeys, covenantKeys, quorum, stakingTime).value.slashing
    ensures out.value == amount && tp.spends(out.pkScript, wit[|wit| - 2], wit[|wit| - 1])
    ensures Ok(out.pkScript) == StakingPkScript(tp, c, staker, fpKeys, covenantKeys, quorum, stakingTime)
    ensures Accepts(SpendEnv(c, sighash, version, sequence), wit[|wit| - 2], wit[..|wit| - 2])
  {
    hide Accepts, Eots.Accepts, Eots.ExtractKey, AS.EncAccepts, B.Verifies, WitnessFromKey, CovSigsMap, ScriptPaths, LexGreater,
      Group.Valid, GoodEntry, GoodEntries, GoodMap, PreSigsOk, SortBIP340PKs, SpendEnv, Distinct,
      AS.NewEncryptionKeyFromPoint, AS.DecryptionKey, StakingPkScript;
    ghost var s1, s2 := sig1.v, sig2.v;
    Eots.ExtractionSound(c, fp, r, h1, s1, h2, s2);
    var info := BuildStakingInfo(tp, c, staker, fpKeys, covenantKeys, quorum, stakingTime, amount);
    out := info.value.output;
    var si := ScriptSpendInfoByName(tp, info.value.scriptHolder, info.value.slashingLeaf).value;
    DoubleSigningIsSlashable(c, staker, fpKeys, covenantKeys, quorum, stakingTime, fp, r, h1, s1, h2, s2, ek, list, stakerSig,
                             si, nonce, sighash, version, sequence);
    var privKey, _ := Eots.ExtractFromHashes(c, fp, r, h1, sig1, h2, sig2);
    var fpSK := new Eots.ModNScalar(c.n, privKey.value);
    var fpPks := XOnly(c, fpKeys);
    var fpIdx := FindFPIdx(fpPks, c.x(c.Base(privKey.value)));
    var covSigs := GetOrderedCovenantSignatures(c, fpIdx.value, list, XOnly(c, covenantKeys));
    var res := BuildSlashingTxWithWitness(c, fpSK, fpPks, stakerSig, covSigs.value, quorum, si, sighash(0), nonce, Some(blind));
    wit := res.value;
    assert wit[|wit| - 2..][0] == wit[|wit| - 2] && wit[|wit| - 2..][1] == wit[|wit| - 1];
  }

  // ----- the other two paths -----

  /** Covenant signatures in witness order, exactly a quorum of them, and the staker's signature
      make a witness that the unbonding path accepts. */
  lemma UnbondingWitnessAccepted(c: Group, staker: Point, fpKeys: seq<Point>, covenantKeys: seq<Point>,
                                 quorum: uint32, lockTime: uint16, covenantSigs: seq<Slot>, stakerSig: B.Signature,
                                 si: SpendInfo, sighash: byte -> Bytes, version: nat, sequence: nat)
    requires c.Valid() && ScriptPaths(c, staker, fpKeys, covenantKeys, quorum, lockTime).Ok?
    requires |covenantSigs| == |covenantKeys| && Serializable(covenantSigs) && |SortBIP340PKs(XOnly(c, covenantKeys))| == |covenantKeys|
    requires forall i :: 0 <= i < |covenantSigs| && covenantSigs[i].Some? ==>
               B.Verifies(c, SortBIP340PKs(XOnly(c, covenantKeys))[i], sighash(0), covenantSigs[i].value)
    requires CountSome(covenantSigs) == Needed(covenantKeys, quorum)
    requires |stakerSig.r| == CoordinateLen && B.Verifies(c, c.x(staker), sighash(0), stakerSig)
    ensures var w := UnbondingWitness(c, si, covenantSigs, Some(stakerSig));
            && w.Ok? && |w.value| >= 2
            && w.value[|w.value| - 2..] == [si.revealedLeaf, si.controlBlock]
            && Accepts(SpendEnv(c, sighash, version, sequence),
                       ScriptPaths(c, staker, fpKeys, covenantKeys, quorum, lockTime).value.unbonding,
                       w.value[..|w.value| - 2])
  {
    hide Accepts, B.Verifies, SigsFit, ScriptPaths, Env.SigOk, SpendEnv, SortBIP340PKs, SortKeys, B.Serialize, Group.Valid;
    PathsFacts(c, staker, fpKeys, covenantKeys, quorum, lockTime);
    var env, slots := SpendEnv(c, sighash, version, sequence), Slots(c, covenantSigs);
    var stack := slots + [B.Serialize(c, stakerSig)];
    SlotsFit(c, sighash, version, sequence, covenantKeys, covenantSigs);
    CountSlots(c, covenantSigs);
    SerializedSigOk(c, sighash, version, sequence, c.x(staker), stakerSig);
    UnbondingPathMeaning(env, c, staker, fpKeys, covenantKeys, quorum, lockTime, stack);
    assert stack[..|slots|] == slots;
    assert (stack + [si.revealedLeaf, si.controlBlock])[..|stack|] == stack;
  }

  /** The staker's signature alone makes a witness that the timelock path accepts exactly when
      the lock is not zero and has expired. */
  lemma TimeLockWitnessAccepted(c: Group, staker: Point, fpKeys: seq<Point>, covenantKeys: seq<Point>,
                                quorum: uint32, lockTime: uint16, stakerSig: B.Signature, si: SpendInfo,
                                sighash: byte -> Bytes, version: nat, sequence: nat)
    requires c.Valid() && ScriptPaths(c, staker, fpKeys, covenantKeys, quorum, lockTime).Ok?
    requires |stakerSig.r| == CoordinateLen && B.Verifies(c, c.x(staker), sighash(0), stakerSig)
    ensures var w, env := TimeLockWitness(c, si, Some(stakerSig)), SpendEnv(c, sighash, version, sequence);
            && w.Ok? && |w.value| >= 2
            && w.value[|w.value| - 2..] == [si.revealedLeaf, si.controlBlock]
            && (Accepts(env, ScriptPaths(c, staker, fpKeys, covenantKeys, quorum, lockTime).value.timeLock,
                        w.value[..|w.value| - 2])
                <==> lockTime > 0 && LockExpired(env, lockTime))
  {
    hide Accepts, B.Verifies, Env.SigOk, SpendEnv, B.Serialize, Group.Valid, LockExpired, ScriptPaths;
    SerializedSigOk(c, sighash, version, sequence, c.x(staker), stakerSig);
    var w := TimeLockWitness(c, si, Some(stakerSig)).value;
    assert w[..1] == [B.Serialize(c, stakerSig)];
    TimeLockOfStake(SpendEnv(c, sighash, version, sequence), c, staker, fpKeys, covenantKeys, quorum, lockTime, w[..1]);
  }
}
