/** The signature group, seen through what the signature code can observe of it.

    A point is the multiple `k*G` of the generator.  The two coordinates are only
    available as the 32-byte encoding of `X` and the parity of `Y`, and challenge
    hashes are an arbitrary function into 256-bit integers. */
module Curve {
  import opened Prelude
  import S = Scalars

  datatype Point = Multiple(log: nat)

  const Infinity := Multiple(0)

  const CoordinateLen := 32

  datatype Group = Group(
    n: nat,                                  // order of the group
    x: Point -> Bytes,                       // X coordinate, big endian
    even: Point -> bool,                     // has the point an even Y coordinate
    lift: Bytes -> Option<Point>,            // the even point with a given X coordinate
    hash: (Bytes, Bytes, Bytes) -> nat       // tagged hash of (R, P, m) as an integer
  ) {

    predicate IsScalar(a: nat) {
      a < n
    }

    /** A point of the group, infinity included. */
    predicate IsPoint(p: Point) {
      p.log < n
    }

    /** A point other than infinity: what can be a public key. */
    predicate IsKey(p: Point) {
      0 < p.log < n
    }

    function Base(k: nat): (p: Point)
      requires IsScalar(k)
      ensures IsPoint(p)
    {
      Multiple(k)
    }

    function Plus(p: Point, q: Point): (r: Point)
      requires IsPoint(p) && IsPoint(q)
      ensures IsPoint(r)
    {
      Multiple(S.Add(n, p.log, q.log))
    }

    function Minus(p: Point): (r: Point)
      requires IsPoint(p)
      ensures IsPoint(r)
    {
      Multiple(S.Neg(n, p.log))
    }

    function Times(k: nat, p: Point): (r: Point)
      requires IsScalar(k) && IsPoint(p)
      ensures IsPoint(r)
    {
      Multiple(S.Mul(n, k, p.log))
    }

    /** The one of `p` and `-p` whose Y coordinate is even. */
    function EvenOf(p: Point): (r: Point)
      requires IsPoint(p)
      ensures IsPoint(r)
    {
      if even(p) then p else Minus(p)
    }

    /** `SerializeCompressed()[0] == PubKeyFormatCompressedOdd` */
    predicate Odd(p: Point) {
      !even(p)
    }

    ghost predicate ValidX() {
      && (forall p: Point :: |x(p)| == CoordinateLen)
      && (forall p: Point, q: Point :: IsPoint(p) && IsPoint(q) ==>
            (x(p) == x(q) <==> p == q || p == Minus(q)))
    }

    ghost predicate ValidParity() {
      && even(Infinity)
      && (forall p: Point :: IsKey(p) ==> even(p) != even(Minus(p)))
    }

    ghost predicate ValidLift() {
      forall b: Bytes, p: Point ::
        lift(b) == Some(p) <==> IsKey(p) && even(p) && x(p) == b
    }

    /** What is assumed of secp256k1: prime order that fits in 32 bytes, `X` identifies a
        point up to sign, and of `P`, `-P` exactly one is even.  No point other than
        infinity has the `X` coordinate (zero) that stands for infinity. */
    ghost predicate Valid() {
      && S.IsPrime(n)
      && n <= Pow256(CoordinateLen)
      && ValidX()
      && ValidParity()
      && ValidLift()
      && (forall r: Bytes, p: Bytes, m: Bytes :: hash(r, p, m) < Pow256(CoordinateLen))
    }
  }

  /** Serialising a key keeps only `X`; parsing it back gives the even one of the pair. */
  lemma LiftOfX(c: Group, p: Point)
    requires c.Valid() && c.IsKey(p)
    ensures c.lift(c.x(p)) == Some(c.EvenOf(p))
    ensures c.IsKey(c.EvenOf(p)) && c.even(c.EvenOf(p)) && c.x(c.EvenOf(p)) == c.x(p)
  {
    var q := c.EvenOf(p);
    assert c.x(q) == c.x(p) by {
      assert q == p || q == c.Minus(p);
      assert c.IsPoint(p) && c.IsPoint(q);
    }
    assert c.IsKey(q) && c.even(q);
  }

  lemma Sizes(c: Group, p: Point)
    requires c.Valid()
    ensures 0 < c.n <= Pow256(CoordinateLen) && |c.x(p)| == CoordinateLen
  {
  }

  lemma LiftOfInfinity(c: Group)
    requires c.Valid()
    ensures c.lift(c.x(Infinity)).None?
  {
    forall p: Point | c.IsKey(p)
      ensures c.x(p) != c.x(Infinity)
    {
      assert c.IsPoint(p) && c.IsPoint(Infinity) && p != c.Minus(Infinity);
    }
  }

  lemma TimesNeg(c: Group, e: nat, p: Point)
    requires c.IsScalar(e) && c.IsPoint(p)
    ensures c.Times(S.Neg(c.n, e), p) == c.Minus(c.Times(e, p))
  {
    S.MulNeg(c.n, e, p.log);
  }

  lemma PlusComm(c: Group, p: Point, q: Point)
    requires c.IsPoint(p) && c.IsPoint(q)
    ensures c.Plus(p, q) == c.Plus(q, p)
  {
  }

  /** Moving a term to the other side of an equation between points. */
  lemma MoveAcross(c: Group, a: Point, b: Point, r: Point)
    requires c.IsPoint(a) && c.IsPoint(b) && c.IsPoint(r)
    ensures c.Plus(a, c.Minus(b)) == r <==> a == c.Plus(r, b)
  {
  }

  /** The three checks a verifier makes on `R = s*G - e*P` (not infinity, even, X
      coordinate `r`) say that `s*G = R' + e*P` for the even point `R'` with coordinate `r`. */
  lemma NonceChecks(c: Group, sG: Point, eP: Point, r: Bytes)
    requires c.Valid() && c.IsPoint(sG) && c.IsPoint(eP)
    ensures var R := c.Plus(sG, c.Minus(eP));
            R != Infinity && c.even(R) && c.x(R) == r
            <==> c.lift(r).Some? && c.IsPoint(c.lift(r).value) && sG == c.Plus(c.lift(r).value, eP)
  {
    var R := c.Plus(sG, c.Minus(eP));
    assert R != Infinity && c.even(R) && c.x(R) == r <==> c.lift(r) == Some(R);
    MoveAcross(c, sG, eP, R);
    if c.lift(r).Some? && c.IsPoint(c.lift(r).value) {
      MoveAcross(c, sG, eP, c.lift(r).value);
    }
  }
}
