/** The wire forms of an adaptor signature: 65 bytes, and the older 66 bytes
    (crypto/schnorr-adaptor-signature/types.go). */
module AdaptorCodec {
  import opened Prelude
  import opened Curve
  import AS = AdaptorSignature

  const JacobianPointSize := 33
  const ScalarSize := 32
  const SignatureSize := 65
  const OldSignatureSize := 66

  datatype Error = WrongLength | OddOldPoint | BadNeedsNegation | BadPoint | SOverflow | NotAffine

  /** A pre-signature the signer can produce: `R0` is not infinity and `s` is reduced. */
  predicate Encodable(c: Group, a: AS.PreSignature) {
    c.IsKey(a.R0) && c.IsScalar(a.s)
  }

  function ParityByte(c: Group, p: Point): (b: byte) {
    if c.Odd(p) then 3 else 2
  }

  lemma EncodingLayout(c: Group, a: AS.PreSignature)
    requires c.Valid() && Encodable(c, a)
    ensures var b := Encoding(c, a);
            && |b| == 65 && b[0] == (if c.even(a.R0) then 2 else 3)
            && b[1..33] == c.x(a.R0) && FromBE(b[33..]) == a.s
  {
    hide Group.Valid, FromBE, ToBE, Pow256;
    Sizes(c, a.R0);
    FromToBE(a.s, ScalarSize);
    assert Encoding(c, a)[33..] == ToBE(a.s, ScalarSize);
  }

  method Marshal(c: Group, a: AS.PreSignature) returns (bytes: Bytes)
    requires c.Valid() && Encodable(c, a)
    ensures bytes == Encoding(c, a)
    ensures |bytes| == 65 && bytes[0] == (if c.even(a.R0) then 2 else 3)
    ensures bytes[1..33] == c.x(a.R0) && FromBE(bytes[33..]) == a.s
  {
    var R0 := a.R0;
    var result := new byte[SignatureSize](_ => 0);
    if c.Odd(R0) {
      result[0] := 3;
    } else {
      result[0] := 2;
    }
    var xBytes := c.x(R0);
    assert |xBytes| == CoordinateLen;
    forall i | 0 <= i < ScalarSize {
      result[1 + i] := xBytes[i];
    }
    var sBytes := ToBE(a.s, ScalarSize);
    forall i | 0 <= i < ScalarSize {
      result[JacobianPointSize + i] := sBytes[i];
    }
    bytes := result[..];
    assert bytes == [ParityByte(c, R0)] + xBytes + sBytes;
    EncodingLayout(c, a);
  }

  function Encoding(c: Group, a: AS.PreSignature): (b: Bytes) {
    [ParityByte(c, a.R0)] + c.x(a.R0) + ToBE(a.s, ScalarSize)
  }

  /** A compressed point; a leading zero byte stands for infinity. */
  function ParseJacobian(c: Group, b: Bytes): (res: Option<Point>)
    requires c.n > 0 && |b| == JacobianPointSize
    ensures res.Some? ==> c.IsPoint(res.value)
  {
    if b[0] == 0 then Some(Infinity)
    else if b[0] != 2 && b[0] != 3 then None
    else match c.lift(b[1..])
      case None => None
      case Some(p) => if !c.IsPoint(p) then None else Some(if b[0] == 2 then p else c.Minus(p))
  }

  method ConvertOldFormatToNewFormat(oldSig: Bytes) returns (res: Result<Bytes, Error>)
    requires |oldSig| == OldSignatureSize
    ensures res == Converted(oldSig)
  {
    if oldSig[0] != 2 {
      return Err(OddOldPoint);
    }
    var newSig := new byte[SignatureSize](_ => 0);
    match oldSig[OldSignatureSize - 1] {
      case 0 => newSig[0] := 2;
      case 1 => newSig[0] := 3;
      case _ => return Err(BadNeedsNegation);
    }
    forall i | 1 <= i < SignatureSize {
      newSig[i] := oldSig[i];
    }
    assert newSig[..] == [2 + oldSig[OldSignatureSize - 1]] + oldSig[1..SignatureSize];
    return Ok(newSig[..]);
  }

  /** The 65-byte form of a 66-byte signature: the trailing flag becomes the parity byte. */
  function Converted(b: Bytes): (res: Result<Bytes, Error>)
    requires |b| == OldSignatureSize
    ensures res.Ok? ==> |res.value| == SignatureSize
  {
    if b[0] != 2 then Err(OddOldPoint)
    else if b[OldSignatureSize - 1] > 1 then Err(BadNeedsNegation)
    else Ok([2 + b[OldSignatureSize - 1]] + b[1..SignatureSize])
  }

  function NewAdaptorSignatureFromBytes(c: Group, raw: Bytes): (res: Result<AS.PreSignature, Error>)
    requires c.n > 0
  {
    if |raw| == OldSignatureSize then
      match Converted(raw)
      case Err(e) => Err(e)
      case Ok(b) => ParseNew(c, b)
    else if |raw| == SignatureSize then ParseNew(c, raw)
    else Err(WrongLength)
  }

  function ParseNew(c: Group, b: Bytes): (res: Result<AS.PreSignature, Error>)
    requires c.n > 0 && |b| == SignatureSize
  {
    match ParseJacobian(c, b[..JacobianPointSize])
    case None => Err(BadPoint)
    case Some(R0) =>
      var s := FromBE(b[JacobianPointSize..]);
      if s >= c.n then Err(SOverflow)
      else if R0 == Infinity then Err(NotAffine)
      else Ok(AS.PreSignature(R0, s))
  }

  /** Parsing undoes marshalling. */
  lemma ParseMarshal(c: Group, a: AS.PreSignature)
    requires c.Valid() && Encodable(c, a)
    ensures |Encoding(c, a)| == SignatureSize
    ensures NewAdaptorSignatureFromBytes(c, Encoding(c, a)) == Ok(a)
  {
    hide Group.Valid, ToBE, FromBE, Pow256;
    var b := Encoding(c, a);
    Sizes(c, a.R0);
    LiftOfX(c, a.R0);
    assert b[..JacobianPointSize][1..] == c.x(a.R0);
    assert b[JacobianPointSize..] == ToBE(a.s, ScalarSize);
    FromToBE(a.s, ScalarSize);
  }

  /** Every 65-byte string that parses is the marshalled form of what it parses to. */
  lemma MarshalParse(c: Group, b: Bytes)
    requires c.Valid() && |b| == SignatureSize
    requires NewAdaptorSignatureFromBytes(c, b).Ok?
    ensures var a := NewAdaptorSignatureFromBytes(c, b).value;
            Encodable(c, a) && Encoding(c, a) == b
  {
    var a := NewAdaptorSignatureFromBytes(c, b).value;
    var point := b[..JacobianPointSize];
    var p := c.lift(point[1..]).value;
    assert c.lift(point[1..]) == Some(p);
    assert c.IsPoint(p) && c.IsPoint(a.R0) && c.IsKey(p);
    assert c.x(a.R0) == point[1..];
    ToFromBE(b[JacobianPointSize..]);
    assert b == [b[0]] + point[1..] + b[JacobianPointSize..];
  }

  /** A 66-byte signature parses exactly when its flags are good and the 65-byte form with
      the parity they select parses, and then both are the same signature. */
  lemma OldFormatMeaning(c: Group, b: Bytes, a: AS.PreSignature)
    requires c.Valid() && |b| == OldSignatureSize
    ensures NewAdaptorSignatureFromBytes(c, b) == Ok(a)
            <==> Encodable(c, a) && b == [2] + Encoding(c, a)[1..] + [if c.Odd(a.R0) then 1 else 0]
  {
    if NewAdaptorSignatureFromBytes(c, b) == Ok(a) {
      var b' := Converted(b).value;
      assert NewAdaptorSignatureFromBytes(c, b') == Ok(a);
      MarshalParse(c, b');
      assert b[1..SignatureSize] == b'[1..];
      assert b == [b[0]] + b[1..SignatureSize] + [b[SignatureSize]];
    }
    if Encodable(c, a) && b == [2] + Encoding(c, a)[1..] + [if c.Odd(a.R0) then 1 else 0] {
      ParseMarshal(c, a);
      assert b[1..SignatureSize] == Encoding(c, a)[1..];
      assert Encoding(c, a) == [Encoding(c, a)[0]] + Encoding(c, a)[1..];
      assert Converted(b) == Ok(Encoding(c, a));
    }
  }
}
