/** Schnorr adaptor signatures (crypto/schnorr-adaptor-signature). */
module AdaptorSignature {
  import opened Prelude
  import opened Curve
  import Bip340
  import Eots
  import S = Scalars

  const HashSize := 32

  datatype PreSignature = PreSignature(R0: Point, s: nat)

  datatype Error =
    | RandomnessUnavailable
    | WrongMessageSize
    | WrongAuxDataSize
    | WrongPubKeySize
    | PubKeyInvalid
    | PrivateKeyIsZero
    | NonceIsZero
    | SIsZero
    | R0AtInfinity
    | RAtInfinity
    | TAtInfinity
    | EncKeyMismatch
    | ZeroInput
    | ScalarIsZero
    | PointAtInfinity

  // ----- verification -----

  /** The nonce point a pre-signature commits to for encryption key `t`: `R0 - T` when
      `R0` is even and its negation when `R0` is odd. */
  function NoncePoint(c: Group, R0: Point, t: Point): (r: Point)
    requires c.IsPoint(R0) && c.IsPoint(t)
    ensures c.IsPoint(r)
  {
    if c.even(R0) then c.Plus(R0, c.Minus(t)) else c.Plus(t, c.Minus(R0))
  }

  /** `s*G = R + e*P` for the nonce point `R`, where nothing involved is zero. */
  predicate EncAccepts(c: Group, psig: PreSignature, m: Bytes, pk: Bytes, t: Point)
    requires c.n > 0 && c.IsPoint(psig.R0) && c.IsScalar(psig.s) && c.IsPoint(t)
  {
    && |m| == HashSize && |pk| == HashSize
    && c.lift(pk).Some? && c.IsPoint(c.lift(pk).value)
    && psig.s != 0 && psig.R0 != Infinity && t != Infinity
    && var R := NoncePoint(c, psig.R0, t);
       R != Infinity
       && c.Base(psig.s) == c.Plus(R, c.Times(Bip340.Challenge(c, c.x(psig.R0), pk, m), c.lift(pk).value))
  }

  /** Recomputing the encryption key from `R = s*G - e*P` gives `t` exactly when `R` is
      the nonce point for `t`. */
  lemma NonceFromKey(c: Group, sG: Point, eP: Point, R0: Point, t: Point)
    requires c.IsPoint(sG) && c.IsPoint(eP) && c.IsPoint(R0) && c.IsPoint(t)
    ensures var R := c.Plus(sG, c.Minus(eP));
            RecomputedKey(c, R0, R) == t
            <==> sG == c.Plus(NoncePoint(c, R0, t), eP)
    ensures sG == c.Plus(NoncePoint(c, R0, t), eP) ==> c.Plus(sG, c.Minus(eP)) == NoncePoint(c, R0, t)
  {
    var R := c.Plus(sG, c.Minus(eP));
    MoveAcross(c, sG, eP, NoncePoint(c, R0, t));
    if c.even(R0) {
      MoveAcross(c, R0, R, t);
      MoveAcross(c, R0, t, R);
      PlusComm(c, t, R);
    } else {
      MoveAcross(c, t, R0, R);
      PlusComm(c, R0, R);
    }
  }

  /** The key a verifier recomputes from a pre-signature. */
  function RecomputedKey(c: Group, R0: Point, R: Point): (t: Point)
    requires c.IsPoint(R0) && c.IsPoint(R)
    ensures c.IsPoint(t)
  {
    if c.even(R0) then c.Plus(R0, NegatePoint(c, R)) else c.Plus(R0, R)
  }

  function NegatePoint(c: Group, p: Point): (r: Point)
    requires c.IsPoint(p)
    ensures c.IsPoint(r) && c.Plus(p, r) == Infinity
  {
    c.Minus(p)
  }

  method EncVerify(c: Group, psig: PreSignature, m: Bytes, pubKeyBytes: Bytes, t: Point)
    returns (err: Option<Error>)
    requires c.Valid() && c.IsPoint(psig.R0) && c.IsScalar(psig.s) && c.IsPoint(t)
    ensures err.None? <==> EncAccepts(c, psig, m, pubKeyBytes, t)
    ensures err == Some(WrongMessageSize) <==> |m| != HashSize
    ensures err == Some(R0AtInfinity) ==> psig.R0 == Infinity
    ensures err == Some(SIsZero) <==>
              |m| == HashSize && |pubKeyBytes| == HashSize && c.lift(pubKeyBytes).Some? && psig.s == 0
    ensures err.None? ==> psig.R0 != Infinity && t != Infinity && NoncePoint(c, psig.R0, t) != Infinity
  {
    hide S.Mul, Bip340.Challenge;
    if |m| != HashSize {
      return Some(WrongMessageSize);
    }
    if |pubKeyBytes| != HashSize {
      return Some(WrongPubKeySize);
    }
    var parsed := c.lift(pubKeyBytes);
    if parsed.None? {
      return Some(PubKeyInvalid);
    }
    var P := parsed.value;
    assert c.lift(pubKeyBytes) == Some(P);
    var s := psig.s;
    if s == 0 {
      return Some(SIsZero);
    }
    var R0 := psig.R0;
    if R0 == Infinity {
      return Some(R0AtInfinity);
    }
    var e := Bip340.Challenge(c, c.x(R0), pubKeyBytes, m);
    ghost var accepted := EncAccepts(c, psig, m, pubKeyBytes, t);
    assert accepted <==> (var R := c.Plus(c.Base(s), c.Times(S.Neg(c.n, e), P));
                          R != Infinity && t != Infinity && RecomputedKey(c, R0, R) == t) by {
      TimesNeg(c, e, P);
      NonceFromKey(c, c.Base(s), c.Times(e, P), R0, t);
    }
    var sG := c.Base(s);
    e := S.Neg(c.n, e);
    var eP := c.Times(e, P);
    var R := c.Plus(sG, eP);
    if R == Infinity {
      return Some(RAtInfinity);
    }
    var T;
    if c.even(R0) {
      T := c.Plus(R0, NegatePoint(c, R));
    } else {
      T := c.Plus(R0, R);
    }
    if T == Infinity {
      return Some(TAtInfinity);
    }
    if T != t {
      return Some(EncKeyMismatch);
    }
    return None;
  }

  // ----- signing -----

  /** Signs with a nonce already derived.  Whatever is returned has passed the verifier; with
      a private key that belongs to the even form of `pubKey`, nothing but a zero `s` is refused. */
  method EncSign(c: Group, privKey: nat, nonce: nat, pubKey: Point, m: Bytes, t: Point, blind: Option<nat>)
    returns (res: Result<PreSignature, Error>)
    requires c.Valid() && c.IsScalar(privKey) && c.IsScalar(nonce) && c.IsKey(pubKey) && c.IsPoint(t)
    ensures res.Ok? ==>
              && c.IsKey(res.value.R0) && c.IsScalar(res.value.s)
              && res.value.R0 == c.Plus(c.Base(nonce), t)
              && EncAccepts(c, res.value, m, c.x(pubKey), t)
    ensures blind.None? ==> res == Err(RandomnessUnavailable)
    ensures res == Err(R0AtInfinity) <==> blind.Some? && c.Plus(c.Base(nonce), t) == Infinity
    // the self-check fails only on a zero s, for every nonzero nonce and encryption key
    ensures c.Base(privKey) == c.EvenOf(pubKey) && blind.Some? && nonce != 0 && t != Infinity && |m| == HashSize ==>
              res.Ok? || res == Err(R0AtInfinity) || res == Err(SIsZero)
    ensures c.Base(privKey) == c.EvenOf(pubKey) && res == Err(SIsZero) ==>
              c.Base(0) == c.Plus(NoncePoint(c, c.Plus(c.Base(nonce), t), t),
                                  c.Times(Bip340.Challenge(c, c.x(c.Plus(c.Base(nonce), t)), c.x(pubKey), m),
                                          c.EvenOf(pubKey)))
  {
    hide S.Mul, Bip340.Challenge;
    var k := nonce;
    var rOpt := Eots.ScalarBaseMultWithBlinding(c, k, blind);
    if rOpt.None? {
      return Err(RandomnessUnavailable);
    }
    var R := rOpt.value;
    var R0 := c.Plus(R, t);
    if R0 == Infinity {
      return Err(R0AtInfinity);
    }
    if c.Odd(R0) {
      k := S.Neg(c.n, k);
    }
    assert c.Base(k) == NoncePoint(c, R0, t);
    var pBytes := c.x(pubKey);
    var e := Bip340.Challenge(c, c.x(R0), pBytes, m);
    var s := S.Mul(c.n, e, privKey);
    s := S.Add(c.n, s, k);
    var psig := PreSignature(R0, s);
    LiftOfX(c, pubKey);
    var err := EncVerify(c, psig, m, pBytes, t);
    if err.Some? {
      return Err(err.value);
    }
    return Ok(psig);
  }

  /** Signing for an arbitrary nonzero key.  `deriveNonce` stands for the tagged hashes
      over the key bytes, the auxiliary data, the encryption key, the public key and the message. */
  method EncSignWithAuxData(c: Group, sk: nat, encKey: Point, msgHash: Bytes, auxData: Bytes,
                            deriveNonce: (Bytes, Bytes, Point, Point, Bytes) -> nat,
                            blindKey: Option<nat>, blindNonce: Option<nat>)
    returns (res: Result<PreSignature, Error>)
    requires c.Valid() && c.IsScalar(sk) && c.IsKey(encKey)
    ensures res.Ok? ==>
              && c.IsPoint(res.value.R0) && c.IsScalar(res.value.s) && sk != 0
              && EncAccepts(c, res.value, msgHash, c.x(c.Base(sk)), encKey)
    ensures |msgHash| == HashSize && |auxData| == HashSize && sk != 0
            && blindKey.Some? && blindNonce.Some? && res.Err? ==>
              res.error in {NonceIsZero, R0AtInfinity, SIsZero}
    ensures res == Err(WrongMessageSize) <==> |msgHash| != HashSize
    ensures res == Err(PrivateKeyIsZero) <==> |msgHash| == HashSize && |auxData| == HashSize && sk == 0
  {
    if |msgHash| != HashSize {
      return Err(WrongMessageSize);
    }
    if |auxData| != HashSize {
      return Err(WrongAuxDataSize);
    }
    var skScalar := sk;
    if skScalar == 0 {
      return Err(PrivateKeyIsZero);
    }
    var pOpt := Eots.ScalarBaseMultWithBlinding(c, sk, blindKey);
    if pOpt.None? {
      return Err(RandomnessUnavailable);
    }
    var pk := pOpt.value;
    if c.Odd(pk) {
      skScalar := S.Neg(c.n, skScalar);
    }
    var nonce := deriveNonce(ToBE(skScalar, HashSize), auxData, encKey, pk, msgHash) % c.n;
    if nonce == 0 {
      return Err(NonceIsZero);
    }
    res := EncSign(c, skScalar, nonce, pk, msgHash, encKey, blindNonce);
  }

  // ----- decryption and extraction -----

  function Decrypted(c: Group, psig: PreSignature, dk: nat): (res: Result<Bip340.Signature, Error>)
    requires c.IsScalar(psig.s) && c.IsScalar(dk)
    ensures res.Ok? <==> psig.s != 0 && dk != 0
  {
    if psig.s == 0 || dk == 0 then Err(ZeroInput)
    else
      Ok(Bip340.Signature(
           c.x(psig.R0),
           S.Add(c.n, psig.s, if c.even(psig.R0) then dk else S.Neg(c.n, dk))))
  }

  function Extracted(c: Group, psig: PreSignature, sig: Bip340.Signature): (res: Result<nat, Error>)
    requires c.IsScalar(psig.s) && c.IsScalar(sig.s)
    ensures res.Ok? <==> psig.s != 0 && sig.s != 0
    ensures res.Ok? ==> c.IsScalar(res.value)
  {
    if psig.s == 0 || sig.s == 0 then Err(ZeroInput)
    else if c.even(psig.R0) then Ok(S.Add(c.n, sig.s, S.Neg(c.n, psig.s)))
    else Ok(S.Add(c.n, psig.s, S.Neg(c.n, sig.s)))
  }

  method Decrypt(c: Group, psig: PreSignature, dk: nat) returns (res: Result<Bip340.Signature, Error>)
    requires c.IsScalar(psig.s) && c.IsScalar(dk)
    ensures res == Decrypted(c, psig, dk)
  {
    var s0 := psig.s;
    var t := dk;
    if s0 == 0 || t == 0 {
      return Err(ZeroInput);
    }
    var R0 := psig.R0;
    var s := s0;
    if !c.Odd(R0) {
      s := S.Add(c.n, s, t);
    } else {
      var tNeg := t;
      tNeg := S.Neg(c.n, tNeg);
      s := S.Add(c.n, s, tNeg);
    }
    return Ok(Bip340.Signature(c.x(R0), s));
  }

  method Extract(c: Group, psig: PreSignature, sig: Bip340.Signature) returns (res: Result<nat, Error>)
    requires c.IsScalar(psig.s) && c.IsScalar(sig.s)
    ensures res == Extracted(c, psig, sig)
  {
    var s0 := psig.s;
    var s := sig.s;
    if s0 == 0 || s == 0 {
      return Err(ZeroInput);
    }
    var R0 := psig.R0;
    var dk;
    if !c.Odd(R0) {
      dk := s;
      var s0Neg := S.Neg(c.n, s0);
      dk := S.Add(c.n, dk, s0Neg);
    } else {
      dk := s0;
      var sNeg := S.Neg(c.n, s);
      dk := S.Add(c.n, dk, sNeg);
    }
    return Ok(dk);
  }

  /** A pre-signature accepted under `t*G` decrypts with `t` to a signature that BIP340
      accepts for the same key and message, whichever the parity of `R0`. */
  lemma DecryptVerifies(c: Group, psig: PreSignature, m: Bytes, pk: Bytes, t: nat)
    requires c.Valid() && c.IsPoint(psig.R0) && c.IsScalar(psig.s) && c.IsScalar(t)
    requires EncAccepts(c, psig, m, pk, c.Base(t))
    ensures Decrypted(c, psig, t).Ok?
    ensures Bip340.Verifies(c, pk, m, Decrypted(c, psig, t).value)
  {
    var sig := Decrypted(c, psig, t).value;
    hide S.Mul, Bip340.Challenge;
    LiftOfX(c, psig.R0);
    Bip340.ChallengeEquation(c, pk, m, sig, c.lift(pk).value);
  }

  /** From an accepted pre-signature and any valid signature with the same nonce
      coordinate, extraction returns the discrete logarithm of the encryption key;
      it refuses exactly the signatures with a zero `s`. */
  lemma ExtractFindsKey(c: Group, psig: PreSignature, m: Bytes, pk: Bytes, t: Point, sig: Bip340.Signature)
    requires c.Valid() && c.IsPoint(psig.R0) && c.IsScalar(psig.s) && c.IsPoint(t) && c.IsScalar(sig.s)
    requires EncAccepts(c, psig, m, pk, t)
    requires sig.r == c.x(psig.R0) && Bip340.Verifies(c, pk, m, sig)
    ensures Extracted(c, psig, sig) == if sig.s == 0 then Err(ZeroInput) else Ok(t.log)
    ensures c.Base(t.log) == t
  {
    hide S.Mul, S.Add, Bip340.Challenge;
    LiftOfX(c, psig.R0);
    Bip340.ChallengeEquation(c, pk, m, sig, c.lift(pk).value);
    KeyFromNonces(c, psig.R0, t, c.Times(Bip340.Challenge(c, c.x(psig.R0), pk, m), c.lift(pk).value));
  }

  lemma KeyFromNonces(c: Group, R0: Point, t: Point, eP: Point)
    requires c.IsPoint(R0) && c.IsPoint(t) && c.IsPoint(eP)
    ensures var s0, s := c.Plus(NoncePoint(c, R0, t), eP).log, c.Plus(c.EvenOf(R0), eP).log;
            t.log == if c.even(R0) then S.Add(c.n, s, S.Neg(c.n, s0)) else S.Add(c.n, s0, S.Neg(c.n, s))
  {
    S.DifferenceOfSums(c.n, c.EvenOf(R0).log, NoncePoint(c, R0, t).log, eP.log);
    S.DifferenceOfSums(c.n, NoncePoint(c, R0, t).log, c.EvenOf(R0).log, eP.log);
  }

  /** Decrypting and then extracting returns the decryption key. */
  lemma ExtractUndoesDecrypt(c: Group, psig: PreSignature, m: Bytes, pk: Bytes, t: nat)
    requires c.Valid() && c.IsPoint(psig.R0) && c.IsScalar(psig.s) && c.IsScalar(t)
    requires EncAccepts(c, psig, m, pk, c.Base(t))
    ensures Decrypted(c, psig, t).Ok? && c.IsScalar(Decrypted(c, psig, t).value.s)
    ensures var sig := Decrypted(c, psig, t).value;
            Extracted(c, psig, sig) == if sig.s == 0 then Err(ZeroInput) else Ok(t)
  {
    DecryptVerifies(c, psig, m, pk, t);
    ExtractFindsKey(c, psig, m, pk, c.Base(t), Decrypted(c, psig, t).value);
  }

  // ----- keys -----

  /** Normalises a scalar to the one with an even encryption key; the caller's scalar
      is overwritten when that is its negation. */
  method NewDecryptionKeyFromModNScalar(c: Group, scalar: Eots.ModNScalar, blind: Option<nat>)
    returns (res: Result<nat, Error>)
    requires c.Valid() && scalar.Valid() && scalar.n == c.n
    modifies scalar
    ensures old(scalar.v) == 0 <==> res == Err(ScalarIsZero)
    ensures res.Ok? <==> old(scalar.v) != 0 && blind.Some?
    ensures res == Err(RandomnessUnavailable) <==> old(scalar.v) != 0 && blind.None?
    ensures res.Ok? ==> res.value == DecryptionKey(c, old(scalar.v)) && scalar.v == res.value
    ensures res.Err? ==> scalar.v == old(scalar.v)
  {
    if scalar.v == 0 {
      return Err(ScalarIsZero);
    }
    var ekOpt := Eots.ScalarBaseMultWithBlinding(c, scalar.v, blind);
    if ekOpt.None? {
      return Err(RandomnessUnavailable);
    }
    if c.Odd(ekOpt.value) {
      scalar.Negate();
    }
    return Ok(scalar.v);
  }

  /** The decryption key made from secret scalar `k`. */
  function DecryptionKey(c: Group, k: nat): (dk: nat)
    requires c.IsScalar(k)
    ensures c.IsScalar(dk)
  {
    if c.even(c.Base(k)) then k else S.Neg(c.n, k)
  }

  function NewEncryptionKeyFromPoint(c: Group, p: Point): (res: Result<Point, Error>)
    requires c.IsPoint(p)
    ensures res.Ok? ==> c.IsPoint(res.value)
  {
    if p == Infinity then Err(PointAtInfinity)
    else if c.even(p) then Ok(p)
    else Ok(NegatePoint(c, p))
  }

  /** The key pair of one secret: the encryption key of the decryption key made from `k`
      is the encryption key made from `k*G`, and it is even. */
  lemma KeyPairMatches(c: Group, k: nat)
    requires c.Valid() && c.IsScalar(k) && k != 0
    ensures NewEncryptionKeyFromPoint(c, c.Base(k)) == Ok(c.Base(DecryptionKey(c, k)))
    ensures c.even(c.Base(DecryptionKey(c, k)))
    ensures c.x(c.Base(DecryptionKey(c, k))) == c.x(c.Base(k))
  {
    LiftOfX(c, c.Base(k));
  }
}
