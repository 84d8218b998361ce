/** Schnorr signatures as BIP340 defines them ("Verification" and "Default Signing"). */
module Bip340 {
  import opened Prelude
  import opened Curve
  import S = Scalars

  const SignatureLen := 64

  datatype Signature = Signature(r: Bytes, s: nat)

  function Challenge(c: Group, r: Bytes, pk: Bytes, m: Bytes): (e: nat)
    requires c.n > 0
    ensures c.IsScalar(e)
  {
    c.hash(r, pk, m) % c.n
  }

  /** The verification steps of BIP340 for an X-only key. */
  predicate Verifies(c: Group, pk: Bytes, m: Bytes, sig: Signature)
    requires c.n > 0
  {
    && c.lift(pk).Some? && c.IsPoint(c.lift(pk).value)
    && c.IsScalar(sig.s)
    && var e := Challenge(c, sig.r, pk, m);
       var R := c.Plus(c.Base(sig.s), c.Times(S.Neg(c.n, e), c.lift(pk).value));
       R != Infinity && c.even(R) && c.x(R) == sig.r
  }

  /** Verification as one equation: `s*G = R + e*P` for the even points `R`, `P`. */
  lemma VerifiesEquation(c: Group, pk: Bytes, m: Bytes, sig: Signature, p: Point)
    requires c.Valid() && c.lift(pk) == Some(p) && c.IsScalar(sig.s)
    ensures c.IsPoint(p)
    ensures Verifies(c, pk, m, sig)
            <==> c.lift(sig.r).Some? && c.IsPoint(c.lift(sig.r).value)
                 && c.Base(sig.s) == c.Plus(c.lift(sig.r).value, c.Times(c.hash(sig.r, pk, m) % c.n, p))
  {
    hide Group.Valid, Verifies, Group.Plus, Group.Times;
    Sizes(c, p);
    ChallengeEquation(c, pk, m, sig, p);
  }

  lemma ChallengeEquation(c: Group, pk: Bytes, m: Bytes, sig: Signature, p: Point)
    requires c.Valid() && c.lift(pk) == Some(p) && c.IsScalar(sig.s)
    ensures c.IsPoint(p)
    ensures Verifies(c, pk, m, sig)
            <==> c.lift(sig.r).Some? && c.IsPoint(c.lift(sig.r).value)
                 && c.Base(sig.s) == c.Plus(c.lift(sig.r).value, c.Times(Challenge(c, sig.r, pk, m), p))
  {
    assert c.IsKey(p);
    var e := Challenge(c, sig.r, pk, m);
    TimesNeg(c, e, p);
    NonceChecks(c, c.Base(sig.s), c.Times(e, p), sig.r);
  }

  /** Default signing with secret key `sk` and the nonce `k` the key and message derive. */
  function Sign(c: Group, sk: nat, k: nat, m: Bytes): (res: Option<Signature>)
    requires c.IsScalar(sk) && c.IsScalar(k)
  {
    if sk == 0 || k == 0 then None
    else
      var d := c.EvenOf(c.Base(sk)).log;
      var R := c.Base(k);
      var e := Challenge(c, c.x(R), c.x(c.Base(sk)), m);
      Some(Signature(c.x(R), S.Add(c.n, c.EvenOf(R).log, S.Mul(c.n, e, d))))
  }

  /** Signing never fails on a nonzero key and nonce, and what it returns verifies. */
  lemma SignVerifies(c: Group, sk: nat, k: nat, m: Bytes)
    requires c.Valid() && c.IsScalar(sk) && c.IsScalar(k) && sk != 0 && k != 0
    ensures Sign(c, sk, k, m).Some?
    ensures Verifies(c, c.x(c.Base(sk)), m, Sign(c, sk, k, m).value)
  {
    var sig := Sign(c, sk, k, m).value;
    LiftOfX(c, c.Base(sk));
    LiftOfX(c, c.Base(k));
    ChallengeEquation(c, c.x(c.Base(sk)), m, sig, c.EvenOf(c.Base(sk)));
  }

  /** A key and its negation make the same signatures. */
  lemma SignIgnoresSign(c: Group, sk: nat, k: nat, m: Bytes)
    requires c.Valid() && c.IsScalar(sk) && c.IsScalar(k)
    ensures Sign(c, S.Neg(c.n, sk), k, m) == Sign(c, sk, k, m)
  {
    if sk != 0 {
      var p, q := c.Base(sk), c.Base(S.Neg(c.n, sk));
      assert q == c.Minus(p) && p == c.Minus(q);
      assert c.IsKey(p) && c.IsKey(q);
      assert c.IsPoint(p) && c.IsPoint(q);
      assert c.x(p) == c.x(q);
    }
  }

  // ----- the 64-byte form -----

  function Serialize(c: Group, sig: Signature): (b: Bytes)
    requires |sig.r| == CoordinateLen
    ensures |b| == SignatureLen
  {
    sig.r + ToBE(sig.s, CoordinateLen)
  }

  lemma SerializeLayout(c: Group, sig: Signature)
    requires |sig.r| == CoordinateLen && sig.s < Pow256(CoordinateLen)
    ensures Serialize(c, sig)[..32] == sig.r && FromBE(Serialize(c, sig)[32..]) == sig.s
  {
    hide ToBE, FromBE, Pow256;
    FromToBE(sig.s, CoordinateLen);
    assert Serialize(c, sig)[32..] == ToBE(sig.s, CoordinateLen);
  }

  function Parse(b: Bytes): (sig: Signature)
    requires |b| == SignatureLen
    ensures |sig.r| == CoordinateLen
  {
    Signature(b[..CoordinateLen], FromBE(b[CoordinateLen..]))
  }

  lemma ParseSerialize(c: Group, sig: Signature)
    requires c.n <= Pow256(CoordinateLen) && c.IsScalar(sig.s) && |sig.r| == CoordinateLen
    ensures Parse(Serialize(c, sig)) == sig
  {
    FromToBE(sig.s, CoordinateLen);
    assert Serialize(c, sig)[CoordinateLen..] == ToBE(sig.s, CoordinateLen);
  }
}
