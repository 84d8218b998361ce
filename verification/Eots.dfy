/** Extractable one-time signatures (crypto/eots). */
module Eots {
  import opened Prelude
  import opened Curve
  import S = Scalars

  datatype Error =
    | PrivateKeyIsZero
    | RandomnessUnavailable
    | HashValueTooBig
    | PubKeyNotOnCurve
    | RAtInfinity
    | ROdd
    | UnequalRValues
    | SignaturesEqual
    | KeyMismatch

  /** A scalar the caller holds by reference (`*btcec.ModNScalar`). */
  class ModNScalar {
    const n: nat
    var v: nat

    ghost predicate Valid()
      reads this
    {
      v < n
    }

    constructor (n: nat, v: nat)
      requires v < n
      ensures this.n == n && this.v == v
    {
      this.n, this.v := n, v;
    }

    method Negate()
      requires Valid()
      modifies this
      ensures Valid() && v == S.Neg(n, old(v))
    {
      v := S.Neg(n, v);
    }
  }

  /** `(k+r)G + (-r)G`, with `blind` the 32 random bytes read as an integer. */
  method ScalarBaseMultWithBlinding(c: Group, k: nat, blind: Option<nat>) returns (res: Option<Point>)
    requires c.Valid() && c.IsScalar(k)
    ensures blind.None? ==> res.None?
    ensures blind.Some? ==> res == Some(c.Base(k))
  {
    if blind.None? {
      return None;
    }
    var r := blind.value % c.n;
    var kr := S.Add(c.n, k, r);
    var krG := c.Base(kr);
    var rNeg := S.Neg(c.n, r);
    var rNegG := c.Base(rNeg);
    res := Some(c.Plus(krG, rNegG));
  }

  /** A signature `s` is good for X-only key `pk`, public randomness `r` and hash `h`
      when the challenge is below the group order and `s*G = R + e*P`, where `R` and `P`
      are the even points with X coordinates `r` and `pk`. */
  predicate Accepts(c: Group, pk: Bytes, r: Bytes, h: Bytes, s: nat)
    requires c.IsScalar(s)
  {
    && c.lift(pk).Some? && c.IsPoint(c.lift(pk).value)
    && c.lift(r).Some? && c.IsPoint(c.lift(r).value)
    && c.hash(r, pk, h) < c.n
    && c.Base(s) == c.Plus(c.lift(r).value, c.Times(c.hash(r, pk, h), c.lift(pk).value))
  }

  method SignHash(c: Group, sk: nat, privateRand: nat, h: Bytes, blind: Option<nat>)
    returns (res: Result<nat, Error>)
    requires c.Valid() && c.IsScalar(sk) && c.IsScalar(privateRand)
    ensures sk == 0 <==> res == Err(PrivateKeyIsZero)
    ensures sk != 0 && blind.None? <==> res == Err(RandomnessUnavailable)
    ensures sk != 0 && blind.Some? ==>
              (res.Ok? <==> c.hash(c.x(c.Base(privateRand)), c.x(c.Base(sk)), h) < c.n)
    ensures sk != 0 && blind.Some? && res.Err? ==> res.error == HashValueTooBig
    ensures res.Ok? ==> c.IsScalar(res.value)
    // complete exactly when the nonce is not zero, in all four parity cases
    ensures res.Ok? ==>
              (Accepts(c, c.x(c.Base(sk)), c.x(c.Base(privateRand)), h, res.value)
               <==> privateRand != 0)
  {
    if sk == 0 {
      return Err(PrivateKeyIsZero);
    }
    var privKeyScalar := sk;
    var pubKey := c.Base(sk);
    var privKeyScalarNegated := S.Neg(c.n, privKeyScalar);
    var isPyOdd := c.Odd(pubKey);
    var k := privateRand;
    var rOpt := ScalarBaseMultWithBlinding(c, k, blind);
    if rOpt.None? {
      return Err(RandomnessUnavailable);
    }
    var R := rOpt.value;
    var kNegated := S.Neg(c.n, k);
    var isRyOdd := c.Odd(R);
    var rBytes := c.x(R);
    var pBytes := c.x(pubKey);
    var e := c.hash(rBytes, pBytes, h);
    if e >= c.n {
      return Err(HashValueTooBig);
    }
    var sig: nat;
    if isPyOdd && isRyOdd {
      sig := S.Mul(c.n, e, privKeyScalarNegated);
      sig := S.Add(c.n, sig, kNegated);
    } else if isPyOdd && !isRyOdd {
      sig := S.Mul(c.n, e, privKeyScalarNegated);
      sig := S.Add(c.n, sig, k);
    } else if !isPyOdd && isRyOdd {
      sig := S.Mul(c.n, e, privKeyScalar);
      sig := S.Add(c.n, sig, kNegated);
    } else {
      sig := S.Mul(c.n, e, privKeyScalar);
      sig := S.Add(c.n, sig, k);
    }
    res := Ok(sig);
    LiftOfX(c, pubKey);
    if k == 0 {
      LiftOfInfinity(c);
    } else {
      LiftOfX(c, R);
    }
  }

  method VerifyHash(c: Group, pubKeyBytes: Bytes, r: Bytes, h: Bytes, sig: nat)
    returns (err: Option<Error>)
    requires c.Valid() && c.IsScalar(sig)
    ensures err.None? <==> Accepts(c, pubKeyBytes, r, h, sig)
    ensures err == Some(PubKeyNotOnCurve) <==> c.lift(pubKeyBytes).None?
    ensures err == Some(HashValueTooBig) <==>
              c.lift(pubKeyBytes).Some? && c.hash(r, pubKeyBytes, h) >= c.n
  {
    var parsed := c.lift(pubKeyBytes);
    if parsed.None? {
      return Some(PubKeyNotOnCurve);
    }
    var P := parsed.value;
    assert c.lift(pubKeyBytes) == Some(P);
    var pBytes := c.x(P);
    var e := c.hash(r, pBytes, h);
    if e >= c.n {
      return Some(HashValueTooBig);
    }
    TimesNeg(c, e, P);
    NonceChecks(c, c.Base(sig), c.Times(e, P), r);
    e := S.Neg(c.n, e);
    var sG := c.Base(sig);
    var eP := c.Times(e, P);
    var R := c.Plus(sG, eP);
    if R == Infinity {
      return Some(RAtInfinity);
    }
    if c.Odd(R) {
      return Some(ROdd);
    }
    if r != c.x(R) {
      return Some(UnequalRValues);
    }
    return None;
  }

  // ----- extraction -----

  /** The key two signatures give away: `(s1 - s2) / (e1 - e2)`, with the sign of `pubKey`,
      provided it is the private key of `pubKey`. */
  function ExtractKey(c: Group, pubKey: Point, r: Bytes, h1: Bytes, s1: nat, h2: Bytes, s2: nat)
    : (res: Result<nat, Error>)
    requires c.IsPoint(pubKey) && c.IsScalar(s1) && c.IsScalar(s2)
    ensures res.Ok? ==> c.IsScalar(res.value) && c.Base(res.value) == pubKey
  {
    var e1, e2 := c.hash(r, c.x(pubKey), h1), c.hash(r, c.x(pubKey), h2);
    if s1 == s2 then Err(SignaturesEqual)
    else if e1 >= c.n || e2 >= c.n then Err(HashValueTooBig)
    else
      var d := ExtractedScalar(c, c.Odd(pubKey), e1, s1, e2, s2);
      if c.Base(d) == pubKey then Ok(d) else Err(KeyMismatch)
  }

  function ExtractedScalar(c: Group, odd: bool, e1: nat, s1: nat, e2: nat, s2: nat): (d: nat)
    requires c.IsScalar(e1) && c.IsScalar(s1) && c.IsScalar(e2) && c.IsScalar(s2)
    ensures c.IsScalar(d)
  {
    var denom := S.Add(c.n, e1, S.Neg(c.n, e2));
    var x := S.Mul(c.n, S.Add(c.n, s1, S.Neg(c.n, s2)), S.Inverse(c.n, denom));
    if odd then S.Neg(c.n, x) else x
  }

  method ExtractFromHashes(c: Group, pubKey: Point, r: Bytes,
                           h1: Bytes, sig1: ModNScalar, h2: Bytes, sig2: ModNScalar)
    returns (privKey: Option<nat>, err: Option<Error>)
    requires c.Valid() && c.IsPoint(pubKey)
    requires sig1.Valid() && sig2.Valid() && sig1.n == sig2.n == c.n
    modifies sig2
    ensures var res := ExtractKey(c, pubKey, r, h1, old(sig1.v), h2, old(sig2.v));
            match res
            case Ok(d) => privKey == Some(d) && err.None?
            case Err(e) => err == Some(e) && (privKey.Some? <==> e == KeyMismatch)
    // the caller's second signature is left negated once both challenges are known to be good
    ensures sig2.v == if err.None? || err == Some(KeyMismatch) then S.Neg(c.n, old(sig2.v)) else old(sig2.v)
    ensures sig1.v == old(sig1.v)
  {
    var pBytes := c.x(pubKey);
    if sig1.v == sig2.v {
      return None, Some(SignaturesEqual);
    }
    var e1 := c.hash(r, pBytes, h1);
    if e1 >= c.n {
      return None, Some(HashValueTooBig);
    }
    var e2 := c.hash(r, pBytes, h2);
    if e2 >= c.n {
      return None, Some(HashValueTooBig);
    }
    e2 := S.Neg(c.n, e2);
    var denom := S.Add(c.n, e1, e2);
    sig2.Negate();
    var x := S.Add(c.n, sig1.v, sig2.v);
    x := S.Mul(c.n, x, S.Inverse(c.n, denom));
    if c.Odd(pubKey) {
      x := S.Neg(c.n, x);
    }
    privKey := Some(x);
    if c.Base(x) == pubKey {
      return privKey, None;
    } else {
      return privKey, Some(KeyMismatch);
    }
  }

  /** The linear system behind extraction: from `s1 = k + e1*d` and `s2 = k + e2*d`
      with different challenges, `(s1 - s2) / (e1 - e2)` is `d`. */
  lemma SolveForKey(n: nat, k: nat, d: nat, e1: nat, s1: nat, e2: nat, s2: nat)
    requires S.IsPrime(n) && k < n && d < n && e1 < n && e2 < n
    requires s1 == S.Add(n, k, S.Mul(n, e1, d)) && s2 == S.Add(n, k, S.Mul(n, e2, d))
    requires e1 != e2
    ensures var denom := S.Add(n, e1, S.Neg(n, e2));
            S.Mul(n, S.Add(n, s1, S.Neg(n, s2)), S.Inverse(n, denom)) == d
  {
    var denom := S.Add(n, e1, S.Neg(n, e2));
    var inv := S.Inverse(n, denom);
    calc {
      S.Add(n, s1, S.Neg(n, s2));
    ==  { S.DifferenceOfSums(n, S.Mul(n, e1, d), S.Mul(n, e2, d), k); }
      S.Add(n, S.Mul(n, e1, d), S.Neg(n, S.Mul(n, e2, d)));
    ==  { S.MulNeg(n, e2, d); S.MulComm(n, e1, d); S.MulComm(n, S.Neg(n, e2), d); }
      S.Add(n, S.Mul(n, d, e1), S.Mul(n, d, S.Neg(n, e2)));
    ==  { S.MulAdd(n, d, e1, S.Neg(n, e2)); }
      S.Mul(n, d, denom);
    }
    calc {
      S.Mul(n, S.Mul(n, d, denom), inv);
    ==  { S.MulAssoc(n, d, denom, inv); }
      S.Mul(n, d, S.Mul(n, denom, inv));
    ==  { S.InverseLaw(n, denom); }
      S.Mul(n, d, 1);
    ==  { S.MulOne(n, d); }
      d;
    }
  }

  /** Two accepted signatures under one key and one randomness, honest or not, give the
      private key away exactly when their challenges differ. */
  lemma ExtractionSound(c: Group, pubKey: Point, r: Bytes, h1: Bytes, s1: nat, h2: Bytes, s2: nat)
    requires c.Valid() && c.IsKey(pubKey) && c.IsScalar(s1) && c.IsScalar(s2)
    requires Accepts(c, c.x(pubKey), r, h1, s1) && Accepts(c, c.x(pubKey), r, h2, s2)
    ensures var e1, e2 := c.hash(r, c.x(pubKey), h1), c.hash(r, c.x(pubKey), h2);
            ExtractKey(c, pubKey, r, h1, s1, h2, s2)
            == if e1 != e2 then Ok(pubKey.log) else Err(SignaturesEqual)
  {
    var e1, e2 := c.hash(r, c.x(pubKey), h1), c.hash(r, c.x(pubKey), h2);
    LiftOfX(c, pubKey);
    if e1 != e2 {
      var k, d := c.lift(r).value.log, c.EvenOf(pubKey).log;
      SolveForKey(c.n, k, d, e1, s1, e2, s2);
      assert c.IsKey(c.EvenOf(pubKey));
      if s1 == s2 {
        S.MulComm(c.n, 0, S.Inverse(c.n, S.Add(c.n, e1, S.Neg(c.n, e2))));
        S.ModUnique(c.n, 0, 0);
      }
    }
  }
}
