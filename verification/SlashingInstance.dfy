/** A double signature that meets every hypothesis of `DoubleSigningIsSlashable`, in the group of
    order seven, so that nothing proved from them is vacuous. */
module SlashingInstance {
  import opened Prelude
  import opened Curve
  import opened Keys
  import opened Slashing
  import opened SlashingEndToEnd
  import opened StakingScripts
  import AC = AdaptorCodec
  import AS = AdaptorSignature
  import B = Bip340
  import Eots
  import S = Scalars
  import Script
  import Taproot

  // ----- the group -----

  /** The X coordinate shared by the multiples `k` and `7 - k`. */
  function X(k: byte): (b: Bytes)
    ensures |b| == CoordinateLen && b[0] == k
  {
    seq(CoordinateLen, _ => k)
  }

  function ClassOf(p: Point): (k: byte) {
    if p.log <= 3 then p.log else if p.log < 7 then 7 - p.log else 0
  }

  function FirstByte(m: Bytes): (k: nat) {
    if m == [] then 0 else m[0]
  }

  /** Multiples up to three are even; challenges are the first byte of the message. */
  function Seven(): (c: Group) {
    Group(
      7,
      (p: Point) => X(ClassOf(p)),
      (p: Point) => p.log <= 3,
      (b: Bytes) => if b == X(1) then Some(Multiple(1)) else if b == X(2) then Some(Multiple(2))
                    else if b == X(3) then Some(Multiple(3)) else None,
      (r: Bytes, p: Bytes, m: Bytes) => FirstByte(m))
  }

  lemma XInjective(j: byte, k: byte)
    ensures X(j) == X(k) <==> j == k
  {
  }

  lemma SevenX()
    ensures Seven().ValidX()
  {
    var c := Seven();
    forall p: Point, q: Point | c.IsPoint(p) && c.IsPoint(q)
      ensures c.x(p) == c.x(q) <==> p == q || p == c.Minus(q)
    {
      XInjective(ClassOf(p), ClassOf(q));
    }
    hide X;
  }

  lemma SevenLift()
    ensures Seven().ValidLift()
  {
    var c := Seven();
    XInjective(1, 2);
    XInjective(1, 3);
    XInjective(2, 3);
    hide X;
    forall b: Bytes, p: Point
      ensures c.lift(b) == Some(p) <==> c.IsKey(p) && c.even(p) && c.x(p) == b
    {
    }
  }

  lemma SevenIsPrime()
    ensures S.IsPrime(7)
  {
    assert 7 % 2 != 0 && 7 % 3 != 0 && 7 % 4 != 0 && 7 % 5 != 0 && 7 % 6 != 0;
  }

  lemma SevenValid()
    ensures Seven().Valid()
  {
    hide X;
    SevenX();
    SevenLift();
    SevenIsPrime();
    assert Pow256(CoordinateLen) == 256 * Pow256(31);
    hide Group.ValidX, Group.ValidLift;
  }

  // ----- the stake, the double signature and what the chain stores -----

  function Staker(): (p: Point) { Multiple(1) }

  function Provider(): (p: Point) { Multiple(2) }

  function Covenant(): (p: Point) { Multiple(3) }

  function PreSignature(): (psig: AS.PreSignature) { AS.PreSignature(Multiple(3), 4) }

  function Stored(): (list: seq<CovenantAdaptorSigs>) {
    [CovenantAdaptorSigs(X(3), [AC.Encoding(Seven(), PreSignature())])]
  }

  function StakerSig(): (sig: B.Signature) { B.Signature(X(2), 3) }

  function SigHash(hashType: byte): (m: Bytes) { X(1) }

  lemma Compiles(lockTime: uint16)
    ensures Seven().Valid()
    ensures ScriptPaths(Seven(), Staker(), [Provider()], [Covenant()], 1, lockTime).Ok?
  {
    SevenValid();
    hide Group.Valid, X;
    var c := Seven();
    XInjective(1, 2);
    XInjective(1, 3);
    XInjective(2, 3);
    var all := AllStakeKeys(c, Staker(), [Provider()], [Covenant()]);
    assert all == [X(1), X(2), X(3)];
  }

  /** With randomness 3G: 5 = 3 + 1*2 and 0 = 3 + 2*2 modulo 7. */
  lemma SignedTwice()
    ensures Seven().IsScalar(5) && Seven().IsScalar(0)
    ensures Eots.Accepts(Seven(), X(2), X(3), X(1), 5) && Eots.Accepts(Seven(), X(2), X(3), X(2), 0)
  {
    XInjective(1, 2);
    XInjective(1, 3);
    XInjective(2, 3);
    hide X;
  }

  lemma LiftOf(k: byte)
    requires 1 <= k <= 3
    ensures Seven().lift(X(k)) == Some(Multiple(k))
  {
    XInjective(1, 2);
    XInjective(1, 3);
    XInjective(2, 3);
    hide X;
  }

  lemma ChallengeIsOne(r: Bytes, pk: Bytes)
    ensures Seven().n == 7 && B.Challenge(Seven(), r, pk, X(1)) == 1
  {
    assert FirstByte(X(1)) == 1;
  }

  /** `r + 1*p == s` for small multiples, without wrapping round. */
  lemma SmallSum(r: nat, p: nat, s: nat)
    requires r + p == s < 7
    ensures var c := Seven();
            && c.IsScalar(1) && c.IsScalar(s) && c.IsPoint(Multiple(r)) && c.IsPoint(Multiple(p))
            && c.Base(s) == c.Plus(Multiple(r), c.Times(1, Multiple(p)))
  {
    assert S.Mul(7, 1, p) == p;
  }

  /** With nonce 2G: 3 = 2 + 1*1. */
  lemma StakerSigned()
    ensures Seven().n > 0 && B.Verifies(Seven(), X(1), X(1), StakerSig())
  {
    hide X, Group.Valid, Seven, B.Verifies, B.Challenge, Group.Plus, Group.Times;
    SevenValid();
    LiftOf(1);
    LiftOf(2);
    ChallengeIsOne(X(2), X(1));
    SmallSum(2, 1, 3);
    B.ChallengeEquation(Seven(), X(1), X(1), StakerSig(), Multiple(1));
  }

  lemma NonceIsOne()
    ensures var c := Seven();
            && c.IsPoint(Multiple(3)) && c.IsPoint(Multiple(2)) && c.x(Multiple(3)) == X(3)
            && AS.NoncePoint(c, Multiple(3), Multiple(2)) == Multiple(1)
  {
    hide X;
  }

  /** With R0 = 3G and T = 2G the nonce point is G, and 4 = 1 + 1*3. */
  lemma PreSignatureAccepted()
    ensures var c := Seven();
            && c.n > 0 && c.IsPoint(Multiple(3)) && c.IsScalar(4) && c.IsPoint(Provider())
            && AS.EncAccepts(c, PreSignature(), X(1), X(3), Provider())
  {
    hide X, Seven, B.Challenge, Group.Plus, Group.Times, AS.NoncePoint;
    LiftOf(3);
    NonceIsOne();
    ChallengeIsOne(X(3), X(3));
    SmallSum(1, 3, 4);
  }

  lemma CovenantSigned()
    ensures Seven().Valid() && Seven().IsPoint(Provider())
    ensures GoodEntries(Seven(), Stored(), [X(3)], 0, X(1), Provider())
  {
    hide X, Group.Valid, AC.NewAdaptorSignatureFromBytes, AC.Encoding, AS.EncAccepts;
    SevenValid();
    PreSignatureAccepted();
    AC.ParseMarshal(Seven(), PreSignature());
    assert GoodEntry(Seven(), Stored()[0], 0, X(1), Provider());
  }

  lemma ProviderKeys()
    ensures Seven().lift(X(2)) == Some(Provider()) && AS.NewEncryptionKeyFromPoint(Seven(), Provider()) == Ok(Provider())
    ensures XOnly(Seven(), [Provider()]) == [X(2)] && XOnly(Seven(), [Covenant()]) == [X(3)]
    ensures IndexOf([X(2)], X(2)) == 0
  {
    XInjective(1, 2);
    hide X;
  }

  /** The provider with key 2 that signed twice is slashed. */
  lemma DoubleSignerIsSlashed(lockTime: uint16, si: Taproot.SpendInfo, version: nat, sequence: nat)
    ensures var c := Seven();
            var key := Eots.ExtractKey(c, Provider(), X(3), X(1), 5, X(2), 0);
            && c.Valid() && key == Ok(2)
            && exists wit :: Script.Accepts(SpendEnv(c, SigHash, version, sequence),
                                            ScriptPaths(c, Staker(), [Provider()], [Covenant()], 1, lockTime).value.slashing, wit)
  {
    hide X, Group.Valid, Script.Accepts, Eots.Accepts, Eots.ExtractKey, B.Verifies, ScriptPaths, GoodEntries, SpendEnv,
      AS.NewEncryptionKeyFromPoint, WitnessFromKey, CovSigsMap;
    Compiles(lockTime);
    SignedTwice();
    StakerSigned();
    CovenantSigned();
    ProviderKeys();
    var c := Seven();
    Eots.ExtractionSound(c, Provider(), X(3), X(1), 5, X(2), 0);
    DoubleSigningIsSlashable(c, Staker(), [Provider()], [Covenant()], 1, lockTime, Provider(), X(3), X(1), 5, X(2), 0,
                             Provider(), Stored(), StakerSig(), si, 1, SigHash, version, sequence);
  }

  // ----- the tree -----

  /** A byte string that can be told apart from whatever follows it. */
  function Marked(b: Bytes): (r: Bytes) {
    if b == [] then [0] else [1, b[0]] + Marked(b[1..])
  }

  function Flat(scripts: seq<Bytes>): (r: Bytes) {
    if scripts == [] then [] else Marked(scripts[0]) + Flat(scripts[1..])
  }

  lemma {:induction false} MarkedApart(a: Bytes, x: Bytes, b: Bytes, y: Bytes)
    requires Marked(a) + x == Marked(b) + y
    ensures a == b && x == y
  {
    var s := Marked(a) + x;
    assert s[0] == Marked(a)[0] == Marked(b)[0];
    if a == [] {
      assert s[1..] == x;
      assert s[1..] == y;
    } else {
      assert s[2..] == Marked(a[1..]) + x;
      assert s[2..] == Marked(b[1..]) + y;
      MarkedApart(a[1..], x, b[1..], y);
      assert s[1] == a[0] == b[0];
      assert a == [a[0]] + a[1..] && b == [b[0]] + b[1..];
    }
  }

  lemma {:induction false} FlatInjective(a: seq<Bytes>, b: seq<Bytes>)
    requires Flat(a) == Flat(b)
    ensures a == b
  {
    if a != [] && b != [] {
      MarkedApart(a[0], Flat(a[1..]), b[0], Flat(b[1..]));
      FlatInjective(a[1..], b[1..]);
      assert a == [a[0]] + a[1..] && b == [b[0]] + b[1..];
    }
  }

  ghost predicate Opened(output: Bytes, script: Bytes, block: Bytes) {
    exists s: seq<Bytes> :: Flat(s) == output && script in s && block == []
  }

  /** Outputs that list their scripts. */
  ghost function Tree(): (tp: Taproot.Taproot) {
    Taproot.Taproot(
      (b: Bytes) => b,
      Flat,
      (s: seq<Bytes>, i: nat) => [],
      (output: Bytes, script: Bytes, block: Bytes) => Opened(output, script, block))
  }

  /** What is assumed of Taproot can be met. */
  lemma TreeValid()
    ensures Tree().Valid()
  {
    var tp := Tree();
    forall s: seq<Bytes>, script: Bytes, block: Bytes
      ensures tp.spends(tp.outputScript(s), script, block) <==> tp.InTree(s, script, block)
    {
      if t: seq<Bytes> :| Flat(t) == Flat(s) && script in t && block == [] {
        FlatInjective(t, s);
        var i :| 0 <= i < |s| && s[i] == script;
        assert block == tp.controlBlock(s, i);
      }
      if tp.InTree(s, script, block) {
        assert script in s && Flat(s) == tp.outputScript(s);
      }
    }
  }
}
