/** From a double signature to a spendable slashing transaction: ordering and decrypting
    the covenant signatures and assembling the witness (x/btcstaking/types/btc_slashing_tx.go,
    x/btcstaking/types/btcstaking.go). */
module Slashing {
  import opened Prelude
  import opened Curve
  import opened Keys
  import opened Taproot
  import opened Witness
  import AC = AdaptorCodec
  import AS = AdaptorSignature
  import B = Bip340
  import Eots

  datatype Error =
    | ProviderIndexOutOfScope
    | BadAdaptorSignature(codec: AC.Error)
    | BadDecryptionKey(key: AS.Error)
    | DecryptionFailed(dec: AS.Error)
    | NotEnoughCovenantSignatures
    | ProviderNotFound
    | SigningFailed
    | BadWitness(wit: Witness.Error)

  // ----- ordering the covenant signatures -----

  /** One covenant member's adaptor signatures, one for each provider of the stake. */
  datatype CovenantAdaptorSigs = CovenantAdaptorSigs(covPk: Bytes, adaptorSigs: seq<Bytes>)

  type SigMap = map<Bytes, AS.PreSignature>

  /** The signatures encrypted to provider `fpIdx`, by covenant key. */
  function CovSigsMap(c: Group, fpIdx: nat, list: seq<CovenantAdaptorSigs>): (res: Result<SigMap, Error>)
    requires c.n > 0
  {
    if list == [] then Ok(map[])
    else
      var last := list[|list| - 1];
      match CovSigsMap(c, fpIdx, list[..|list| - 1])
      case Err(e) => Err(e)
      case Ok(m) =>
        if fpIdx >= |last.adaptorSigs| then Err(ProviderIndexOutOfScope)
        else match AC.NewAdaptorSignatureFromBytes(c, last.adaptorSigs[fpIdx])
          case Err(e) => Err(BadAdaptorSignature(e))
          case Ok(sig) => Ok(m[last.covPk := sig])
  }

  /** One slot for each key, filled when the key has signed. */
  function PickSigs(pks: seq<Bytes>, m: SigMap): (r: seq<Option<AS.PreSignature>>)
    ensures |r| == |pks|
    ensures forall i :: 0 <= i < |pks| ==> r[i] == if pks[i] in m then Some(m[pks[i]]) else None
  {
    seq(|pks|, i requires 0 <= i < |pks| => if pks[i] in m then Some(m[pks[i]]) else None)
  }

  method GetOrderedCovenantSignatures(c: Group, fpIdx: nat, covSigsList: seq<CovenantAdaptorSigs>,
                                      covenantPks: seq<Bytes>)
    returns (res: Result<seq<Option<AS.PreSignature>>, Error>)
    requires c.n > 0
    ensures res == match CovSigsMap(c, fpIdx, covSigsList)
                   case Err(e) => Err(e)
                   case Ok(m) => Ok(PickSigs(SortBIP340PKs(covenantPks), m))
  {
    hide AC.NewAdaptorSignatureFromBytes;
    var covSigsMap: SigMap := map[];
    for i := 0 to |covSigsList|
      invariant CovSigsMap(c, fpIdx, covSigsList[..i]) == Ok(covSigsMap)
    {
      var covSigs := covSigsList[i];
      assert covSigsList[..i + 1][..i] == covSigsList[..i];
      if fpIdx >= |covSigs.adaptorSigs| {
        CovSigsMapError(c, fpIdx, covSigsList, i + 1);
        return Err(ProviderIndexOutOfScope);
      }
      var parsed := AC.NewAdaptorSignatureFromBytes(c, covSigs.adaptorSigs[fpIdx]);
      if parsed.Err? {
        CovSigsMapError(c, fpIdx, covSigsList, i + 1);
        return Err(BadAdaptorSignature(parsed.error));
      }
      covSigsMap := covSigsMap[covSigs.covPk := parsed.value];
    }
    assert covSigsList[..|covSigsList|] == covSigsList;
    var ordered := SortBIP340PKs(covenantPks);
    var sigs: seq<Option<AS.PreSignature>> := [];
    for i := 0 to |ordered|
      invariant sigs == PickSigs(ordered, covSigsMap)[..i]
    {
      if ordered[i] in covSigsMap {
        sigs := sigs + [Some(covSigsMap[ordered[i]])];
      } else {
        sigs := sigs + [None];
      }
    }
    assert sigs == PickSigs(ordered, covSigsMap);
    return Ok(sigs);
  }

  /** The first bad entry decides the error. */
  lemma {:induction false} CovSigsMapError(c: Group, fpIdx: nat, list: seq<CovenantAdaptorSigs>, i: nat)
    requires c.n > 0 && i <= |list| && CovSigsMap(c, fpIdx, list[..i]).Err?
    ensures CovSigsMap(c, fpIdx, list) == CovSigsMap(c, fpIdx, list[..i])
    decreases |list|
  {
    if i < |list| {
      assert list[..|list| - 1][..i] == list[..i];
      CovSigsMapError(c, fpIdx, list[..|list| - 1], i);
    } else {
      assert list[..i] == list;
    }
  }

  // ----- decrypting a quorum -----

  function CountSome<T>(s: seq<Option<T>>): (n: nat)
    ensures n <= |s|
  {
    if s == [] then 0 else (if s[0].Some? then 1 else 0) + CountSome(s[1..])
  }

  function Nones<T>(n: nat): (r: seq<Option<T>>)
    ensures |r| == n && forall i :: 0 <= i < n ==> r[i].None?
  {
    seq(n, _ => None)
  }

  predicate PreSigsOk(c: Group, sigs: seq<Option<AS.PreSignature>>) {
    forall i :: 0 <= i < |sigs| && sigs[i].Some? ==> c.IsScalar(sigs[i].value.s)
  }

  /** Decrypts from the front and stops as soon as `quorum` signatures are there (`got` of
      them before these); the slots after that stay empty. */
  function DecryptQuorum(c: Group, sigs: seq<Option<AS.PreSignature>>, dk: nat, quorum: nat, got: nat)
    : (res: Result<seq<Slot>, Error>)
    requires c.IsScalar(dk) && PreSigsOk(c, sigs)
    decreases |sigs|
  {
    if sigs == [] then Ok([])
    else if sigs[0].Some? && AS.Decrypted(c, sigs[0].value, dk).Err? then
      Err(DecryptionFailed(AS.Decrypted(c, sigs[0].value, dk).error))
    else
      var slot := if sigs[0].Some? then Some(AS.Decrypted(c, sigs[0].value, dk).value) else None;
      var got' := got + if sigs[0].Some? then 1 else 0;
      Prefixed([slot], if got' == quorum then Ok(Nones(|sigs| - 1))
                       else DecryptQuorum(c, sigs[1..], dk, quorum, got'))
  }

  /** With at least a quorum of decryptable signatures, exactly the quorum is decrypted and
      every filled slot holds the decryption of the signature in the same position. */
  lemma {:induction false} DecryptQuorumExact(c: Group, sigs: seq<Option<AS.PreSignature>>, dk: nat, quorum: nat, got: nat)
    requires c.IsScalar(dk) && dk != 0 && got < quorum
    requires forall i :: 0 <= i < |sigs| && sigs[i].Some? ==> c.IsScalar(sigs[i].value.s) && sigs[i].value.s != 0
    ensures DecryptQuorum(c, sigs, dk, quorum, got).Ok?
    ensures var slots := DecryptQuorum(c, sigs, dk, quorum, got).value;
            && |slots| == |sigs|
            && (forall i :: 0 <= i < |slots| && slots[i].Some? ==>
                  sigs[i].Some? && AS.Decrypted(c, sigs[i].value, dk) == Ok(slots[i].value))
            && CountSome(slots) == if CountSome(sigs) <= quorum - got then CountSome(sigs) else quorum - got
    decreases |sigs|
  {
    if sigs != [] {
      var got' := got + if sigs[0].Some? then 1 else 0;
      if got' == quorum {
        CountThenNones<B.Signature>([], |sigs| - 1);
        assert [] + Nones<B.Signature>(|sigs| - 1) == Nones(|sigs| - 1);
        var slots := DecryptQuorum(c, sigs, dk, quorum, got).value;
        assert slots[1..] == Nones(|sigs| - 1);
      } else {
        DecryptQuorumExact(c, sigs[1..], dk, quorum, got');
        var slots := DecryptQuorum(c, sigs, dk, quorum, got).value;
        assert slots[1..] == DecryptQuorum(c, sigs[1..], dk, quorum, got').value;
      }
    }
  }

  /** Slots already decided in front of those still to come. */
  function Prefixed(done: seq<Slot>, rest: Result<seq<Slot>, Error>): (r: Result<seq<Slot>, Error>) {
    match rest
    case Err(e) => Err(e)
    case Ok(s) => Ok(done + s)
  }

  method DecryptCovenantSigs(c: Group, covenantSigs: seq<Option<AS.PreSignature>>, decKey: nat, quorum: nat)
    returns (res: Result<seq<Slot>, Error>, numSigs: nat)
    requires c.IsScalar(decKey) && PreSigsOk(c, covenantSigs)
    ensures res == DecryptQuorum(c, covenantSigs, decKey, quorum, 0)
    ensures res.Ok? ==> numSigs == CountSome(res.value)
  {
    hide AS.Decrypted, CountSome, Prefixed;
    var n := |covenantSigs|;
    var covSigs: seq<Slot> := Nones(n);
    numSigs := 0;
    ghost var done: seq<Slot>, target := [], DecryptQuorum(c, covenantSigs, decKey, quorum, 0);
    assert covenantSigs[0..] == covenantSigs;
    PrefixedEmpty(done, target);
    CountThenNones<B.Signature>([], 0);
    for i := 0 to n
      invariant |done| == i && covSigs == done + Nones(n - i)
      invariant Prefixed(done, DecryptQuorum(c, covenantSigs[i..], decKey, quorum, numSigs)) == target
      invariant numSigs == CountSome(done)
    {
      assert covenantSigs[i..][1..] == covenantSigs[i + 1..];
      if covenantSigs[i].Some? {
        var covSig := AS.Decrypt(c, covenantSigs[i].value, decKey);
        if covSig.Err? {
          PrefixedError(done, DecryptionFailed(covSig.error));
          return Err(DecryptionFailed(covSig.error)), numSigs;
        }
        covSigs := covSigs[i := Some(covSig.value)];
        numSigs := numSigs + 1;
      }
      CountSnoc(done, covSigs[i]);
      ghost var rest := if numSigs == quorum then Ok(Nones(n - i - 1))
                        else DecryptQuorum(c, covenantSigs[i + 1..], decKey, quorum, numSigs);
      PrefixedSnoc(done, covSigs[i], rest);
      done := done + [covSigs[i]];
      assert covSigs == done + Nones(n - i - 1);
      if numSigs == quorum {
        CountThenNones(done, n - i - 1);
        PrefixedOk(done, Nones(n - i - 1));
        return Ok(covSigs), numSigs;
      }
    }
    PrefixedOk(done, []);
    assert covSigs == done;
    return Ok(covSigs), numSigs;
  }

  lemma PrefixedOk(done: seq<Slot>, rest: seq<Slot>)
    ensures Prefixed(done, Ok(rest)) == Ok(done + rest)
    ensures rest == [] ==> done + rest == done
  {
  }

  lemma PrefixedError(done: seq<Slot>, e: Error)
    ensures Prefixed(done, Err(e)) == Err(e)
  {
  }

  lemma PrefixedEmpty(done: seq<Slot>, rest: Result<seq<Slot>, Error>)
    requires done == []
    ensures Prefixed(done, rest) == rest
  {
    if rest.Ok? {
      assert [] + rest.value == rest.value;
    }
  }

  lemma PrefixedSnoc(done: seq<Slot>, slot: Slot, rest: Result<seq<Slot>, Error>)
    ensures Prefixed(done + [slot], rest) == Prefixed(done, Prefixed([slot], rest))
  {
    if rest.Ok? {
      assert (done + [slot]) + rest.value == done + ([slot] + rest.value);
    }
  }

  lemma {:induction false} CountSnoc<T>(s: seq<Option<T>>, x: Option<T>)
    ensures CountSome(s + [x]) == CountSome(s) + if x.Some? then 1 else 0
  {
    if s != [] {
      CountSnoc(s[1..], x);
      assert (s + [x])[1..] == s[1..] + [x];
    } else {
      assert (s + [x])[1..] == [];
    }
  }

  lemma {:induction false} CountThenNones<T>(s: seq<Option<T>>, n: nat)
    ensures CountSome(s + Nones(n)) == CountSome(s)
    ensures s == [] ==> CountSome(s) == 0
    decreases n
  {
    if n > 0 {
      CountThenNones(s + [None], n - 1);
      CountSnoc(s, None);
      assert s + Nones(n) == (s + [None]) + Nones(n - 1);
    } else {
      assert s + Nones(0) == s;
    }
  }

  // ----- the witness -----

  /** Position of the first occurrence of `k`. */
  function IndexOf(s: seq<Bytes>, k: Bytes): (i: nat)
    ensures i <= |s|
    ensures i < |s| ==> s[i] == k
    ensures i == |s| <==> k !in s
    ensures forall j :: 0 <= j < i ==> s[j] != k
  {
    if s == [] then 0 else if s[0] == k then 0 else 1 + IndexOf(s[1..], k)
  }

  method FindFPIdxInWitness(c: Group, fpSK: nat, fpBTCPKs: seq<Bytes>) returns (res: Result<nat, Error>)
    requires c.IsScalar(fpSK)
    ensures var i := IndexOf(SortBIP340PKs(fpBTCPKs), c.x(c.Base(fpSK)));
            res == if i < |SortBIP340PKs(fpBTCPKs)| then Ok(i) else Err(ProviderNotFound)
  {
    var fpBTCPK := c.x(c.Base(fpSK));
    var sorted := SortBIP340PKs(fpBTCPKs);
    for i := 0 to |sorted|
      invariant fpBTCPK !in sorted[..i]
    {
      if sorted[i] == fpBTCPK {
        assert forall j :: 0 <= j < i ==> sorted[..i][j] == sorted[j];
        return Ok(i);
      }
    }
    assert sorted[..|sorted|] == sorted;
    return Err(ProviderNotFound);
  }

  /** Everything but one slot is empty. */
  function OneSlot(n: nat, idx: nat, sig: B.Signature): (r: seq<Slot>)
    ensures |r| == n && forall i :: 0 <= i < n ==> r[i] == if i == idx then Some(sig) else None
  {
    seq(n, i => if i == idx then Some(sig) else None)
  }

  lemma {:induction false} DecryptQuorumSlots(c: Group, sigs: seq<Option<AS.PreSignature>>, dk: nat, quorum: nat, got: nat)
    requires c.Valid() && c.IsScalar(dk) && PreSigsOk(c, sigs)
    ensures DecryptQuorum(c, sigs, dk, quorum, got).Ok? ==>
              && |DecryptQuorum(c, sigs, dk, quorum, got).value| == |sigs|
              && Serializable(DecryptQuorum(c, sigs, dk, quorum, got).value)
    decreases |sigs|
  {
    if sigs != [] {
      DecryptQuorumSlots(c, sigs[1..], dk, quorum, got + if sigs[0].Some? then 1 else 0);
    }
  }

  /** The witness for the slashing path, made with the secret key `sk` of a provider: the
      covenant signatures decrypted up to the quorum, the provider's own signature in its
      slot, and the staker's signature. */
  ghost function WitnessFromKey(c: Group, sk: nat, fpBTCPKs: seq<Bytes>, delegatorSig: B.Signature,
                          covenantSigs: seq<Option<AS.PreSignature>>, quorum: uint32, si: SpendInfo,
                          msg: Bytes, nonce: nat): (res: Result<seq<Bytes>, Error>)
    requires c.Valid() && c.IsScalar(sk) && c.IsScalar(nonce) && PreSigsOk(c, covenantSigs)
    requires |delegatorSig.r| == CoordinateLen
  {
    if sk == 0 then Err(BadDecryptionKey(AS.ScalarIsZero))
    else
      var dk := AS.DecryptionKey(c, sk);
      var dec := DecryptQuorum(c, covenantSigs, dk, quorum, 0);
      if dec.Err? then Err(dec.error)
      else if CountSome(dec.value) < quorum then Err(NotEnoughCovenantSignatures)
      else
        var sorted := SortBIP340PKs(fpBTCPKs);
        var idx := IndexOf(sorted, c.x(c.Base(sk)));
        if idx == |sorted| then Err(ProviderNotFound)
        else match B.Sign(c, sk, nonce, msg)
          case None => Err(SigningFailed)
          case Some(fpSig) =>
            DecryptQuorumSlots(c, covenantSigs, dk, quorum, 0);
            match SlashingWitness(c, si, dec.value, OneSlot(|fpBTCPKs|, idx, fpSig), Some(delegatorSig))
            case Err(e) => Err(BadWitness(e))
            case Ok(w) => Ok(w)
  }

  /** Normalising the decryption key overwrites the caller's secret key; the witness is the
      one for the original key all the same. */
  method BuildSlashingTxWithWitness(c: Group, fpSK: Eots.ModNScalar, fpBTCPKs: seq<Bytes>, delegatorSig: B.Signature,
                                    covenantSigs: seq<Option<AS.PreSignature>>, quorum: uint32, si: SpendInfo,
                                    msg: Bytes, nonce: nat, blind: Option<nat>)
    returns (res: Result<seq<Bytes>, Error>)
    requires c.Valid() && fpSK.Valid() && fpSK.n == c.n && c.IsScalar(nonce) && PreSigsOk(c, covenantSigs)
    requires |delegatorSig.r| == CoordinateLen
    modifies fpSK
    ensures blind.Some? || old(fpSK.v) == 0 ==>
              res == WitnessFromKey(c, old(fpSK.v), fpBTCPKs, delegatorSig, covenantSigs, quorum, si, msg, nonce)
    ensures blind.None? && old(fpSK.v) != 0 ==> res == Err(BadDecryptionKey(AS.RandomnessUnavailable))
    ensures fpSK.v == if blind.None? || old(fpSK.v) == 0 then old(fpSK.v) else AS.DecryptionKey(c, old(fpSK.v))
  {
    ghost var sk := fpSK.v;
    var dkRes := AS.NewDecryptionKeyFromModNScalar(c, fpSK, blind);
    if dkRes.Err? {
      return Err(BadDecryptionKey(dkRes.error));
    }
    var decKey := dkRes.value;
    SameIdentity(c, sk, nonce, msg);
    var dec, numSigs := DecryptCovenantSigs(c, covenantSigs, decKey, quorum);
    if dec.Err? {
      return Err(dec.error);
    }
    var covSigs := dec.value;
    if numSigs < quorum {
      return Err(NotEnoughCovenantSignatures);
    }
    var idx := FindFPIdxInWitness(c, fpSK.v, fpBTCPKs);
    if idx.Err? {
      return Err(idx.error);
    }
    var fpSig := B.Sign(c, fpSK.v, nonce, msg);
    if fpSig.None? {
      return Err(SigningFailed);
    }
    DecryptQuorumSlots(c, covenantSigs, decKey, quorum, 0);
    var fpSigs := OneSlot(|fpBTCPKs|, idx.value, fpSig.value);
    var w := CreateSlashingPathWitness(c, si, covSigs, fpSigs, Some(delegatorSig));
    return match w case Err(e) => Err(BadWitness(e)) case Ok(w) => Ok(w);
  }

  /** The normalised key has the same X-only identity and makes the same signatures. */
  lemma SameIdentity(c: Group, sk: nat, nonce: nat, msg: Bytes)
    requires c.Valid() && c.IsScalar(sk) && sk != 0 && c.IsScalar(nonce)
    ensures c.x(c.Base(AS.DecryptionKey(c, sk))) == c.x(c.Base(sk))
    ensures B.Sign(c, AS.DecryptionKey(c, sk), nonce, msg) == B.Sign(c, sk, nonce, msg)
  {
    AS.KeyPairMatches(c, sk);
    B.SignIgnoresSign(c, sk, nonce, msg);
  }
}
