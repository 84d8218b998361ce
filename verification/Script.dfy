/** The part of tapscript that the staking scripts use: script numbers, script bytes and the
    stack machine, following BIP342 ("Rules for signature opcodes") and BIP112. */
module Script {
  import opened Prelude

  // ----- opcodes -----

  const OP_0: byte := 0x00
  const OP_DATA_75: byte := 0x4b
  const OP_1: byte := 0x51
  const OP_16: byte := 0x60
  const OP_RETURN: byte := 0x6a
  const OP_NUMEQUAL: byte := 0x9c
  const OP_NUMEQUALVERIFY: byte := 0x9d
  const OP_CHECKSIG: byte := 0xac
  const OP_CHECKSIGVERIFY: byte := 0xad
  const OP_CHECKSEQUENCEVERIFY: byte := 0xb2
  const OP_CHECKSIGADD: byte := 0xba

  const MaxStackSize := 1000
  const MaxScriptElementSize := 520

  datatype Op =
    | Push(data: Bytes)
    | CheckSig
    | CheckSigVerify
    | CheckSigAdd
    | NumEqual
    | NumEqualVerify
    | CheckSequenceVerify

  // ----- script numbers -----

  function MinimalLE(v: nat): (b: Bytes) {
    if v == 0 then [] else [v % 256] + MinimalLE(v / 256)
  }

  /** The minimal encoding of a non-negative script number. */
  function EncodeNum(v: nat): (b: Bytes) {
    var b := MinimalLE(v);
    if b != [] && b[|b| - 1] >= 0x80 then b + [0] else b
  }

  /** A script number of at most `maxLen` bytes; anything but the minimal form is refused. */
  function DecodeNum(b: Bytes, maxLen: nat): (res: Option<int>) {
    if |b| > maxLen then None
    else if b == [] then Some(0)
    else
      var top := b[|b| - 1];
      if top % 0x80 == 0 && (|b| == 1 || b[|b| - 2] < 0x80) then None
      else if top < 0x80 then Some(FromLE(b))
      else Some(0 - FromLE(b[..|b| - 1] + [top - 0x80]))
  }

  lemma {:induction false} FromMinimalLE(v: nat)
    ensures FromLE(MinimalLE(v)) == v
  {
    if v > 0 {
      FromMinimalLE(v / 256);
      assert MinimalLE(v)[1..] == MinimalLE(v / 256);
    }
  }

  lemma {:induction false} MinimalLELast(v: nat)
    requires v > 0
    ensures MinimalLE(v) != [] && MinimalLE(v)[|MinimalLE(v)| - 1] > 0
  {
    if v >= 256 {
      MinimalLELast(v / 256);
    }
  }

  lemma {:induction false} FromLEPadded(b: Bytes)
    ensures FromLE(b + [0]) == FromLE(b)
  {
    if b != [] {
      FromLEPadded(b[1..]);
      assert (b + [0])[1..] == b[1..] + [0];
    }
  }

  lemma DecodeEncodeNum(v: nat, maxLen: nat)
    requires |EncodeNum(v)| <= maxLen
    ensures DecodeNum(EncodeNum(v), maxLen) == Some(v)
  {
    var b := MinimalLE(v);
    FromMinimalLE(v);
    FromLEPadded(b);
    if v > 0 {
      MinimalLELast(v);
    }
  }

  lemma {:induction false} MinimalLELen(v: nat, len: nat)
    requires v < Pow256(len)
    ensures |MinimalLE(v)| <= len
  {
    if v > 0 {
      MinimalLELen(v / 256, len - 1);
    }
  }

  /** A positive number never encodes to a value the machine reads as false. */
  lemma EncodeNumTruth(v: nat)
    ensures CastToBool(EncodeNum(v)) <==> v != 0
  {
    if v > 0 {
      MinimalLELast(v);
      var b := MinimalLE(v);
      assert EncodeNum(v)[|b| - 1] == b[|b| - 1] != 0;
    }
  }

  /** False is every encoding of zero, negative zero included. */
  predicate CastToBool(b: Bytes) {
    exists i :: 0 <= i < |b| && b[i] != 0 && !(i == |b| - 1 && b[i] == 0x80)
  }

  // ----- reading a script -----

  /** The operations a script consists of; `None` for a push that runs past the end and for
      opcodes outside this model. */
  function Decode(script: Bytes): (res: Option<seq<Op>>) {
    if script == [] then Some([])
    else
      var len := InstructionLen(script);
      if len > |script| then None
      else match DecodeOne(script[..len])
        case None => None
        case Some(op) => Join(Some([op]), Decode(script[len..]))
  }

  function Join(a: Option<seq<Op>>, b: Option<seq<Op>>): (res: Option<seq<Op>>) {
    if a.Some? && b.Some? then Some(a.value + b.value) else None
  }

  function InstructionLen(script: Bytes): (len: nat)
    requires script != []
    ensures len > 0
  {
    if OP_0 < script[0] <= OP_DATA_75 then 1 + script[0] else 1
  }

  function DecodeOne(instr: Bytes): (res: Option<Op>)
    requires instr != []
  {
    var code := instr[0];
    if code <= OP_DATA_75 then Some(Push(instr[1..]))
    else if OP_1 <= code <= OP_16 then Some(Push([code - OP_1 + 1]))
    else if code == OP_CHECKSIG then Some(CheckSig)
    else if code == OP_CHECKSIGVERIFY then Some(CheckSigVerify)
    else if code == OP_CHECKSIGADD then Some(CheckSigAdd)
    else if code == OP_NUMEQUAL then Some(NumEqual)
    else if code == OP_NUMEQUALVERIFY then Some(NumEqualVerify)
    else if code == OP_CHECKSEQUENCEVERIFY then Some(CheckSequenceVerify)
    else None
  }

  /** Scripts put one after the other decode to their operations one after the other. */
  lemma {:induction false} DecodeConcat(a: Bytes, b: Bytes)
    requires Decode(a).Some?
    ensures Decode(a + b) == Join(Decode(a), Decode(b))
  {
    hide DecodeOne;
    if a == [] {
      assert a + b == b;
      assert Decode(b).Some? ==> [] + Decode(b).value == Decode(b).value;
    } else {
      var len := InstructionLen(a);
      assert (a + b)[..len] == a[..len];
      assert (a + b)[len..] == a[len..] + b;
      DecodeConcat(a[len..], b);
      JoinAssoc(Some([DecodeOne(a[..len]).value]), Decode(a[len..]), Decode(b));
    }
  }

  lemma JoinAssoc(a: Option<seq<Op>>, b: Option<seq<Op>>, c: Option<seq<Op>>)
    ensures Join(Join(a, b), c) == Join(a, Join(b, c))
  {
    if a.Some? && b.Some? && c.Some? {
      assert (a.value + b.value) + c.value == a.value + (b.value + c.value);
    }
  }

  // ----- the machine -----

  /** What execution can ask about the spending transaction. */
  datatype Env = Env(
    validSig: (Bytes, Bytes) -> bool,   // (32-byte key, signature bytes)
    version: nat,                       // transaction version, as an unsigned number
    sequence: nat                       // sequence number of the spending input
  ) {
    /** Signatures have 64 bytes, or 65 with a hash type. */
    ghost predicate Valid() {
      forall k: Bytes, s: Bytes :: validSig(k, s) ==> |s| == 64 || |s| == 65
    }

    /** The signature part of a signature opcode; keys of unknown type are not checked. */
    predicate SigOk(key: Bytes, sig: Bytes) {
      sig != [] && (|key| == 32 ==> validSig(key, sig))
    }

    /** The relative lock of BIP112: the disable flag is bit 31, the type flag bit 22. */
    predicate SequenceAllows(operand: nat) {
      || operand / 0x8000_0000 % 2 == 1
      || (version >= 2
          && sequence / 0x8000_0000 % 2 == 0
          && operand / 0x40_0000 % 2 == sequence / 0x40_0000 % 2
          && operand % 0x1_0000 <= sequence % 0x1_0000)
    }
  }

  function Top(st: seq<Bytes>, depth: nat): (b: Bytes)
    requires depth < |st|
  {
    st[|st| - 1 - depth]
  }

  function Bool(b: bool): (r: Bytes) {
    if b then [1] else []
  }

  /** One operation on a stack whose top is the last element; `None` when execution fails. */
  function Step(env: Env, op: Op, st: seq<Bytes>): (res: Option<seq<Bytes>>) {
    match op
    case Push(data) => Some(st + [data])
    case CheckSig =>
      if |st| < 2 || Top(st, 0) == [] then None
      else
        var key, sig, rest := Top(st, 0), Top(st, 1), st[..|st| - 2];
        if sig == [] then Some(rest + [Bool(false)])
        else if env.SigOk(key, sig) then Some(rest + [Bool(true)])
        else None
    case CheckSigVerify =>
      if |st| < 2 || Top(st, 0) == [] then None
      else if env.SigOk(Top(st, 0), Top(st, 1)) then Some(st[..|st| - 2])
      else None
    case CheckSigAdd =>
      if |st| < 3 || Top(st, 0) == [] then None
      else
        var key, sig, rest := Top(st, 0), Top(st, 2), st[..|st| - 3];
        (match DecodeNum(Top(st, 1), 4)
         case None => None
         case Some(v) =>
           if sig == [] then Some(rest + [Top(st, 1)])
           else if env.SigOk(key, sig) then Some(rest + [EncodeSigned(v + 1)])
           else None)
    case NumEqual =>
      (match PopTwo(st)
       case None => None
       case Some((a, b)) => Some(st[..|st| - 2] + [Bool(a == b)]))
    case NumEqualVerify =>
      (match PopTwo(st)
       case None => None
       case Some((a, b)) => if a == b then Some(st[..|st| - 2]) else None)
    case CheckSequenceVerify =>
      if |st| < 1 then None
      else match DecodeNum(Top(st, 0), 5)
        case None => None
        case Some(v) => if v >= 0 && env.SequenceAllows(v) then Some(st) else None
  }

  function EncodeSigned(v: int): (b: Bytes) {
    if v >= 0 then EncodeNum(v)
    else
      var b := EncodeNum(-v);
      if b == [] then [] else b[..|b| - 1] + [(b[|b| - 1] + 0x80) % 256]
  }

  function PopTwo(st: seq<Bytes>): (res: Option<(int, int)>)
    ensures res.Some? ==> |st| >= 2
  {
    if |st| < 2 then None
    else match (DecodeNum(Top(st, 0), 4), DecodeNum(Top(st, 1), 4))
      case (Some(a), Some(b)) => Some((a, b))
      case _ => None
  }

  function Run(env: Env, ops: seq<Op>, st: seq<Bytes>): (res: Option<seq<Bytes>>) {
    if ops == [] then Some(st)
    else match Step(env, ops[0], st)
      case None => None
      case Some(st') => if |st'| > MaxStackSize then None else Run(env, ops[1..], st')
  }

  /** A witness stack satisfies a script: execution ends with a single true element. */
  predicate Accepts(env: Env, script: Bytes, wit: seq<Bytes>) {
    && |wit| <= MaxStackSize
    && (forall i :: 0 <= i < |wit| ==> |wit[i]| <= MaxScriptElementSize)
    && Decode(script).Some?
    && EndsTrue(Run(env, Decode(script).value, wit))
  }

  predicate EndsTrue(res: Option<seq<Bytes>>) {
    res.Some? && |res.value| == 1 && CastToBool(res.value[0])
  }

  lemma BoolTruth(b: bool)
    ensures CastToBool(Bool(b)) <==> b
  {
    if b {
      assert Bool(b)[0] == 1;
    }
  }

  /** Continues a run that may already have failed. */
  function RunFrom(env: Env, ops: seq<Op>, st: Option<seq<Bytes>>): (res: Option<seq<Bytes>>) {
    match st
    case None => None
    case Some(st) => Run(env, ops, st)
  }

  lemma {:induction false} RunConcat(env: Env, a: seq<Op>, b: seq<Op>, st: seq<Bytes>)
    ensures Run(env, a + b, st) == RunFrom(env, b, Run(env, a, st))
  {
    if a == [] {
      assert a + b == b;
    } else {
      assert (a + b)[0] == a[0] && (a + b)[1..] == a[1..] + b;
      match Step(env, a[0], st) {
        case None =>
        case Some(st') => RunConcat(env, a[1..], b, st');
      }
    }
  }
}
