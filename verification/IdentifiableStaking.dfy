/** Staking transactions that identify themselves with an OP_RETURN output
    (btcstaking/identifiable_staking.go). */
module IdentifiableStaking {
  import opened Prelude
  import opened Curve
  import opened Keys
  import opened Script
  import opened StakingScripts
  import opened Taproot

  const TagLen := 4
  const V0OpReturnDataSize := 71
  const MaxDataCarrierSize := 80
  const OP_DATA_71: byte := 71
  const OP_PUSHDATA1: byte := 0x4c
  const OP_PUSHDATA2: byte := 0x4d
  const OP_PUSHDATA4: byte := 0x4e

  datatype OpReturnData = OpReturnData(tag: Bytes, version: byte, staker: Point, fp: Point, stakingTime: uint16)

  // ----- printing and parsing the data -----

  /** Tag, version, the X coordinates of staker and provider, and the staking time in two bytes. */
  predicate Layout(c: Group, d: OpReturnData, data: Bytes) {
    && |data| == 71 && data[..4] == d.tag && data[4] == d.version
    && data[5..37] == c.x(d.staker) && data[37..69] == c.x(d.fp) && FromBE(data[69..]) == d.stakingTime
  }

  method Marshall(c: Group, d: OpReturnData) returns (data: Bytes)
    ensures data == Marshalled(c, d)
    ensures c.Valid() && |d.tag| == TagLen ==> Layout(c, d, data)
  {
    if c.Valid() && |d.tag| == TagLen {
      MarshalledLayout(c, d);
    }
    data := [];
    data := data + d.tag;
    data := data + [d.version];
    data := data + c.x(d.staker);
    data := data + c.x(d.fp);
    data := data + ToBE(d.stakingTime, 2);
  }

  function Marshalled(c: Group, d: OpReturnData): (b: Bytes) {
    d.tag + [d.version] + c.x(d.staker) + c.x(d.fp) + ToBE(d.stakingTime, 2)
  }

  lemma MarshalledLayout(c: Group, d: OpReturnData)
    requires c.Valid() && |d.tag| == TagLen
    ensures Layout(c, d, Marshalled(c, d))
  {
    hide Group.Valid, ToBE, FromBE;
    Sizes(c, d.staker);
    Sizes(c, d.fp);
    assert Pow256(2) == 0x1_0000;
    hide Pow256;
    FromToBE(d.stakingTime, 2);
    Slices(d.tag, d.version, c.x(d.staker), c.x(d.fp), ToBE(d.stakingTime, 2));
  }

  lemma Slices(tag: Bytes, version: byte, staker: Bytes, fp: Bytes, time: Bytes)
    requires |tag| == 4 && |staker| == |fp| == 32 && |time| == 2
    ensures var b := tag + [version] + staker + fp + time;
            && |b| == 71 && b[..4] == tag && b[4] == version
            && b[5..37] == staker && b[37..69] == fp && b[69..] == time
  {
  }

  /** The OP_RETURN script that carries exactly the 71 data bytes. */
  function NullDataScript(data: Bytes): (script: Bytes)
    requires |data| == V0OpReturnDataSize
  {
    [OP_RETURN, OP_DATA_71] + data
  }

  /** The data of a script that is one single push, in any of its forms. */
  function SinglePush(s: Bytes): (data: Option<Bytes>) {
    if s == [] then None
    else
      var op := s[0];
      if op == 0 || 0x51 <= op <= 0x60 then (if |s| == 1 then Some([]) else None)
      else if op < OP_PUSHDATA1 then (if |s| - 1 == op then Some(s[1..]) else None)
      else if op == OP_PUSHDATA1 then
        (if |s| >= 2 && |s| - 2 == s[1] then Some(s[2..]) else None)
      else if op == OP_PUSHDATA2 then
        (if |s| >= 3 && |s| == 3 + FromLE(s[1..3]) then Some(s[3..]) else None)
      else if op == OP_PUSHDATA4 then
        (if |s| >= 5 && |s| == 5 + FromLE(s[1..5]) then Some(s[5..]) else None)
      else None
  }

  predicate IsNullData(script: Bytes) {
    && |script| >= 1 && script[0] == OP_RETURN
    && (|script| == 1 || (SinglePush(script[1..]).Some? && |SinglePush(script[1..]).value| <= MaxDataCarrierSize))
  }

  function GetV0OpReturnBytes(out: TxOut): (res: Option<Bytes>)
    ensures res.Some? ==> |res.value| == V0OpReturnDataSize
  {
    if |out.pkScript| != V0OpReturnDataSize + 2 || !IsNullData(out.pkScript) then None
    else Some(out.pkScript[2..])
  }

  function NewV0OpReturnDataFromBytes(c: Group, b: Bytes): (res: Option<OpReturnData>) {
    if |b| != V0OpReturnDataSize || b[TagLen] != 0 then None
    else
      match (c.lift(b[5..37]), c.lift(b[37..69]))
      case (Some(staker), Some(fp)) =>
        assert FromBE(b[69..]) < 0x1_0000 by { assert Pow256(2) == 0x1_0000; }
        Some(OpReturnData(b[..TagLen], 0, staker, fp, FromBE(b[69..])))
      case _ => None
  }

  function ParseOutput(c: Group, out: TxOut): (res: Option<OpReturnData>) {
    match GetV0OpReturnBytes(out)
    case None => None
    case Some(b) => NewV0OpReturnDataFromBytes(c, b)
  }

  /** The data as a parser sees it: the keys with even Y coordinates. */
  function Normal(c: Group, d: OpReturnData): (r: OpReturnData)
    requires c.IsPoint(d.staker) && c.IsPoint(d.fp)
  {
    d.(staker := c.EvenOf(d.staker), fp := c.EvenOf(d.fp))
  }

  /** Data that the constructors accept. */
  predicate WellFormed(c: Group, d: OpReturnData) {
    |d.tag| == TagLen && d.version == 0 && c.IsKey(d.staker) && c.IsKey(d.fp)
  }

  lemma MarshalledParts(c: Group, d: OpReturnData)
    requires c.Valid() && |d.tag| == TagLen
    ensures var b := Marshalled(c, d);
            && |b| == V0OpReturnDataSize && b[..TagLen] == d.tag && b[TagLen] == d.version
            && b[5..37] == c.x(d.staker) && b[37..69] == c.x(d.fp) && b[69..] == ToBE(d.stakingTime, 2)
  {
  }

  /** The data of an output with a direct 71-byte push. */
  lemma NullDataBytes(data: Bytes, value: int)
    requires |data| == V0OpReturnDataSize
    ensures GetV0OpReturnBytes(TxOut(value, NullDataScript(data))) == Some(data)
  {
    var script := NullDataScript(data);
    var push := script[1..];
    assert push == [OP_DATA_71] + data && push[1..] == data && script[2..] == data;
  }

  lemma ParseMarshalled(c: Group, d: OpReturnData)
    requires c.Valid() && WellFormed(c, d)
    ensures NewV0OpReturnDataFromBytes(c, Marshalled(c, d)) == Some(Normal(c, d))
  {
    LiftOfX(c, d.staker);
    LiftOfX(c, d.fp);
    MarshalledParts(c, d);
    assert Pow256(2) == 0x1_0000;
    FromToBE(d.stakingTime, 2);
    hide Group.Valid, Marshalled, ToBE, FromBE;
  }

  /** Parsing the printed output gives the data back, with the keys made even. */
  lemma ParseUndoesPrint(c: Group, d: OpReturnData, value: int)
    requires c.Valid() && WellFormed(c, d)
    ensures |Marshalled(c, d)| == V0OpReturnDataSize
    ensures ParseOutput(c, TxOut(value, NullDataScript(Marshalled(c, d)))) == Some(Normal(c, d))
  {
    hide Group.Valid, Marshalled, GetV0OpReturnBytes, NewV0OpReturnDataFromBytes, NullDataScript;
    MarshalledParts(c, d);
    NullDataBytes(Marshalled(c, d), value);
    ParseMarshalled(c, d);
  }

  lemma ParsedKeys(c: Group, b: Bytes, staker: Point, fp: Point)
    requires c.Valid() && |b| == V0OpReturnDataSize
    requires c.lift(b[5..37]) == Some(staker) && c.lift(b[37..69]) == Some(fp)
    ensures c.IsKey(staker) && c.IsKey(fp) && c.even(staker) && c.even(fp)
    ensures c.x(staker) == b[5..37] && c.x(fp) == b[37..69]
  {
  }

  lemma ParsedTime(b: Bytes)
    requires |b| == V0OpReturnDataSize
    ensures ToBE(FromBE(b[69..]), 2) == b[69..]
  {
    ToFromBE(b[69..]);
  }

  lemma Fields(b: Bytes)
    requires |b| == V0OpReturnDataSize
    ensures b == b[..TagLen] + [b[TagLen]] + b[5..37] + b[37..69] + b[69..]
  {
  }

  /** Marshalling what was parsed gives the 71 bytes back. */
  lemma MarshalUndoesParse(c: Group, b: Bytes)
    requires c.Valid() && NewV0OpReturnDataFromBytes(c, b).Some?
    ensures var d := NewV0OpReturnDataFromBytes(c, b).value;
            WellFormed(c, d) && Normal(c, d) == d && Marshalled(c, d) == b
  {
    hide Group.Valid, ToBE, FromBE;
    var d := NewV0OpReturnDataFromBytes(c, b).value;
    ParsedKeys(c, b, d.staker, d.fp);
    ParsedTime(b);
    Fields(b);
  }

  /** Printing what was parsed from an output with a direct 71-byte push gives the output back. */
  lemma PrintUndoesParse(c: Group, out: TxOut)
    requires c.Valid() && ParseOutput(c, out).Some? && out.pkScript[1] == OP_DATA_71
    ensures var d := ParseOutput(c, out).value;
            && WellFormed(c, d) && Normal(c, d) == d
            && |Marshalled(c, d)| == V0OpReturnDataSize
            && NullDataScript(Marshalled(c, d)) == out.pkScript
  {
    hide Group.Valid, NewV0OpReturnDataFromBytes, Marshalled, WellFormed, Normal, SinglePush;
    var b := GetV0OpReturnBytes(out).value;
    MarshalUndoesParse(c, b);
    assert out.pkScript == [out.pkScript[0], out.pkScript[1]] + b;
  }

  // ----- parsing a transaction -----

  datatype Error =
    | InvalidTagLength | NoCovenantKeys | QuorumTooBig | TooFewOutputs | MultipleOpReturns | NoOpReturn
    | BadStakingInfo | MultipleStakingOutputs | NoStakingOutput | UnexpectedTag

  datatype ParsedTx = ParsedTx(stakingOutput: TxOut, stakingIdx: nat, opReturnOutput: TxOut, opReturnIdx: nat, data: OpReturnData)

  ghost predicate OnlyOpReturn(c: Group, outs: seq<TxOut>, i: nat) {
    && i < |outs| && ParseOutput(c, outs[i]).Some?
    && forall k :: 0 <= k < |outs| && k != i ==> ParseOutput(c, outs[k]).None?
  }

  ghost predicate OnlyStakingOutput(outs: seq<TxOut>, script: Bytes, j: nat) {
    && j < |outs| && outs[j].pkScript == script
    && forall k :: 0 <= k < |outs| && k != j ==> outs[k].pkScript != script
  }

  method TryToGetOpReturnData(c: Group, outs: seq<TxOut>) returns (res: Result<Option<(nat, OpReturnData)>, Error>)
    ensures match res
            case Ok(Some((i, d))) => OnlyOpReturn(c, outs, i) && ParseOutput(c, outs[i]) == Some(d)
            case Ok(None) => forall k :: 0 <= k < |outs| ==> ParseOutput(c, outs[k]).None?
            case Err(e) =>
              e == MultipleOpReturns
              && exists i, j :: 0 <= i < j < |outs| && ParseOutput(c, outs[i]).Some? && ParseOutput(c, outs[j]).Some?
  {
    hide ParseOutput;
    var found: Option<(nat, OpReturnData)> := None;
    for i := 0 to |outs|
      invariant found.None? ==> forall k :: 0 <= k < i ==> ParseOutput(c, outs[k]).None?
      invariant found.Some? ==>
                  && found.value.0 < i && ParseOutput(c, outs[found.value.0]) == Some(found.value.1)
                  && forall k :: 0 <= k < i && k != found.value.0 ==> ParseOutput(c, outs[k]).None?
    {
      var d := ParseOutput(c, outs[i]);
      if d.None? {
        continue;
      }
      if found.Some? {
        assert ParseOutput(c, outs[found.value.0]).Some? && ParseOutput(c, outs[i]).Some?;
        return Err(MultipleOpReturns);
      }
      found := Some((i, d.value));
    }
    return Ok(found);
  }

  method TryToGetStakingOutput(outs: seq<TxOut>, script: Bytes) returns (res: Result<Option<nat>, Error>)
    ensures match res
            case Ok(Some(j)) => OnlyStakingOutput(outs, script, j)
            case Ok(None) => forall k :: 0 <= k < |outs| ==> outs[k].pkScript != script
            case Err(e) =>
              e == MultipleStakingOutputs
              && exists i, j :: 0 <= i < j < |outs| && outs[i].pkScript == outs[j].pkScript == script
  {
    var found: Option<nat> := None;
    for i := 0 to |outs|
      invariant found.None? ==> forall k :: 0 <= k < i ==> outs[k].pkScript != script
      invariant found.Some? ==>
                  && found.value < i && outs[found.value].pkScript == script
                  && forall k :: 0 <= k < i && k != found.value ==> outs[k].pkScript != script
    {
      if outs[i].pkScript != script {
        continue;
      }
      if found.Some? {
        assert outs[found.value].pkScript == outs[i].pkScript == script;
        return Err(MultipleStakingOutputs);
      }
      found := Some(i);
    }
    return Ok(found);
  }

  /** What it means for a list of outputs to be a staking transaction: exactly one output
      carries staking data, and exactly one pays to the script that the data describes. */
  ghost predicate ParsesTo(tp: Taproot, c: Group, outs: seq<TxOut>, covenantKeys: seq<Point>, quorum: uint32, p: ParsedTx)
    requires c.Valid()
  {
    && covenantKeys != [] && quorum <= |covenantKeys| && |outs| >= 2
    && OnlyOpReturn(c, outs, p.opReturnIdx)
    && outs[p.opReturnIdx] == p.opReturnOutput && ParseOutput(c, p.opReturnOutput) == Some(p.data)
    && var script := StakingPkScript(tp, c, p.data.staker, [p.data.fp], covenantKeys, quorum, p.data.stakingTime);
       && script.Ok?
       && OnlyStakingOutput(outs, script.value, p.stakingIdx)
       && outs[p.stakingIdx] == p.stakingOutput
  }

  method ParseV0StakingTxWithoutTag(tp: Taproot, c: Group, outs: seq<TxOut>, covenantKeys: seq<Point>, quorum: uint32)
    returns (res: Result<ParsedTx, Error>)
    requires tp.Valid() && c.Valid()
    ensures res.Ok? ==> ParsesTo(tp, c, outs, covenantKeys, quorum, res.value)
    ensures res.Err? ==> forall p :: !ParsesTo(tp, c, outs, covenantKeys, quorum, p)
  {
    hide ParseOutput, ScriptPaths;
    if |covenantKeys| == 0 {
      return Err(NoCovenantKeys);
    }
    if quorum > |covenantKeys| {
      return Err(QuorumTooBig);
    }
    if |outs| < 2 {
      return Err(TooFewOutputs);
    }
    var opReturn := TryToGetOpReturnData(c, outs);
    if opReturn.Err? {
      return Err(opReturn.error);
    }
    if opReturn.value.None? {
      return Err(NoOpReturn);
    }
    var (i, d) := opReturn.value.value;
    // the amount does not enter the output script
    var info := BuildStakingInfo(tp, c, d.staker, [d.fp], covenantKeys, quorum, d.stakingTime, 0);
    assert forall p :: ParsesTo(tp, c, outs, covenantKeys, quorum, p) ==> p.opReturnIdx == i && p.data == d;
    if info.Err? {
      return Err(BadStakingInfo);
    }
    var script := info.value.output.pkScript;
    var staking := TryToGetStakingOutput(outs, script);
    if staking.Err? {
      return Err(staking.error);
    }
    if staking.value.None? {
      return Err(NoStakingOutput);
    }
    var j := staking.value.value;
    return Ok(ParsedTx(outs[j], j, outs[i], i, d));
  }

  method ParseV0StakingTx(tp: Taproot, c: Group, outs: seq<TxOut>, expectedTag: Bytes, covenantKeys: seq<Point>, quorum: uint32)
    returns (res: Result<ParsedTx, Error>)
    requires tp.Valid() && c.Valid()
    ensures res.Ok? ==> |expectedTag| == TagLen && ParsesTo(tp, c, outs, covenantKeys, quorum, res.value)
                        && res.value.data.tag == expectedTag
    ensures res.Err? && |expectedTag| == TagLen ==>
              forall p :: ParsesTo(tp, c, outs, covenantKeys, quorum, p) ==> p.data.tag != expectedTag
  {
    if |expectedTag| != TagLen {
      return Err(InvalidTagLength);
    }
    var parsed := ParseV0StakingTxWithoutTag(tp, c, outs, covenantKeys, quorum);
    if parsed.Err? {
      return parsed;
    }
    if parsed.value.data.tag != expectedTag {
      forall p | ParsesTo(tp, c, outs, covenantKeys, quorum, p)
        ensures p == parsed.value
      {
        ParseIsUnique(tp, c, outs, covenantKeys, quorum, p, parsed.value);
      }
      return Err(UnexpectedTag);
    }
    return parsed;
  }

  lemma ParseIsUnique(tp: Taproot, c: Group, outs: seq<TxOut>, covenantKeys: seq<Point>, quorum: uint32, p: ParsedTx, q: ParsedTx)
    requires c.Valid()
    requires ParsesTo(tp, c, outs, covenantKeys, quorum, p) && ParsesTo(tp, c, outs, covenantKeys, quorum, q)
    ensures p == q
  {
    hide ParseOutput, StakingPkScript;
  }

  /** A transaction with the two outputs built for a stake, in any order and among any outputs
      that match neither, parses back to the same tag, X-only keys, staking time and positions,
      whatever the parities of the original keys and whatever the amount. */
  lemma StakingTxRoundTrip(tp: Taproot, c: Group, d: OpReturnData, covenantKeys: seq<Point>, quorum: uint32,
                           outs: seq<TxOut>, i: nat, j: nat, p: ParsedTx)
    requires c.Valid() && WellFormed(c, d) && |Marshalled(c, d)| == V0OpReturnDataSize
    requires StakingPkScript(tp, c, d.staker, [d.fp], covenantKeys, quorum, d.stakingTime).Ok?
    requires i < |outs| && j < |outs| && i != j
    requires outs[i].pkScript == NullDataScript(Marshalled(c, d))
    requires outs[j].pkScript == StakingPkScript(tp, c, d.staker, [d.fp], covenantKeys, quorum, d.stakingTime).value
    requires forall k :: 0 <= k < |outs| && k != i ==> ParseOutput(c, outs[k]).None?
    requires forall k :: 0 <= k < |outs| && k != j ==> outs[k].pkScript != outs[j].pkScript
    ensures ParsesTo(tp, c, outs, covenantKeys, quorum, p) <==> p == ParsedTx(outs[j], j, outs[i], i, Normal(c, d))
    ensures c.x(Normal(c, d).staker) == c.x(d.staker) && c.x(Normal(c, d).fp) == c.x(d.fp)
  {
    hide ParseOutput, ScriptPaths;
    ParseUndoesPrint(c, d, outs[i].value);
    assert outs[i] == TxOut(outs[i].value, NullDataScript(Marshalled(c, d)));
    LiftOfX(c, d.staker);
    LiftOfX(c, d.fp);
    assert XOnly(c, [d.fp]) == XOnly(c, [c.EvenOf(d.fp)]);
    StakingPkScriptCanonical(tp, c, d.staker, [d.fp], covenantKeys,
                             c.EvenOf(d.staker), [c.EvenOf(d.fp)], covenantKeys, quorum, d.stakingTime);
    StakingKeysBound(tp, c, d.staker, [d.fp], covenantKeys, quorum, d.stakingTime);
    hide StakingPkScript;
    var q := ParsedTx(outs[j], j, outs[i], i, Normal(c, d));
    assert OnlyOpReturn(c, outs, i);
    assert OnlyStakingOutput(outs, outs[j].pkScript, j);
    assert ParsesTo(tp, c, outs, covenantKeys, quorum, q);
    if ParsesTo(tp, c, outs, covenantKeys, quorum, p) {
      ParseIsUnique(tp, c, outs, covenantKeys, quorum, p, q);
    }
  }

  lemma StakingKeysBound(tp: Taproot, c: Group, staker: Point, fpKeys: seq<Point>, covenantKeys: seq<Point>,
                         quorum: uint32, stakingTime: uint16)
    requires c.Valid() && StakingPkScript(tp, c, staker, fpKeys, covenantKeys, quorum, stakingTime).Ok?
    ensures covenantKeys != [] && quorum <= |covenantKeys|
  {
    MultiSigScriptLen(c, covenantKeys, quorum, false);
  }

  // ----- the fast filter -----

  /** The output carries the tag and version 0, whether or not its keys parse. */
  predicate Candidate(out: TxOut, tag: Bytes) {
    && GetV0OpReturnBytes(out).Some?
    && GetV0OpReturnBytes(out).value[..TagLen] == tag
    && GetV0OpReturnBytes(out).value[TagLen] == 0
  }

  ghost predicate OnlyCandidate(outs: seq<TxOut>, tag: Bytes, i: nat) {
    && i < |outs| && Candidate(outs[i], tag)
    && forall k :: 0 <= k < |outs| && k != i ==> !Candidate(outs[k], tag)
  }

  /** A script of 73 bytes that is OP_RETURN and one push of the rest, in any of the four forms; the
      data are taken from the third byte on, whatever the form. */
  predicate IsDataScript(script: Bytes) {
    && |script| == 73 && script[0] == 0x6a
    && (|| script[1] == 71
        || (script[1] == 0x4c && script[2] == 70)
        || (script[1] == 0x4d && script[2..4] == [69, 0])
        || (script[1] == 0x4e && script[2..6] == [67, 0, 0, 0]))
  }

  lemma DataBytesMeans(out: TxOut)
    ensures GetV0OpReturnBytes(out) == if IsDataScript(out.pkScript) then Some(out.pkScript[2..]) else None
  {
    hide FromLE;
    var script := out.pkScript;
    if |script| == 73 {
      var s := script[1..];
      if script[1] == 0x4d {
        var length := s[1..3];
        assert length == [s[1], s[2]] && script[2..4] == [script[2], script[3]];
        LengthBytes(length, 69);
        assert [69] + seq(1, _ => 0) == [69, 0];
      } else if script[1] == 0x4e {
        var length := s[1..5];
        assert length == [s[1], s[2], s[3], s[4]] && script[2..6] == [script[2], script[3], script[4], script[5]];
        LengthBytes(length, 67);
        assert [67] + seq(3, _ => 0) == [67, 0, 0, 0];
      }
    }
  }

  lemma LengthBytes(b: Bytes, n: byte)
    requires |b| == 2 || |b| == 4
    ensures FromLE(b) == n <==> b == [n] + seq(|b| - 1, _ => 0)
  {
    var zeros := seq(|b| - 1, _ => 0);
    ToFromLE(b);
    ToFromLE([n] + zeros);
    ZeroTail(zeros);
    assert ([n] + zeros)[1..] == zeros;
  }

  lemma {:induction false} ZeroTail(b: Bytes)
    requires forall i :: 0 <= i < |b| ==> b[i] == 0
    ensures FromLE(b) == 0
  {
    if b != [] {
      ZeroTail(b[1..]);
    }
  }

  /** What the filter looks at: the tag and the version byte of a data script. */
  lemma CandidateMeans(out: TxOut, tag: Bytes)
    ensures Candidate(out, tag) <==> IsDataScript(out.pkScript) && out.pkScript[2..6] == tag && out.pkScript[6] == 0
  {
    hide GetV0OpReturnBytes;
    DataBytesMeans(out);
    if IsDataScript(out.pkScript) {
      assert out.pkScript[2..][..TagLen] == out.pkScript[2..6];
    }
  }

  method IsPossibleV0StakingTx(outs: seq<TxOut>, expectedTag: Bytes) returns (possible: bool)
    ensures possible <==> |expectedTag| == TagLen && |outs| >= 2 && exists i :: OnlyCandidate(outs, expectedTag, i)
  {
    if |expectedTag| != TagLen {
      return false;
    }
    if |outs| < 2 {
      return false;
    }
    hide GetV0OpReturnBytes;
    possible := false;
    ghost var at := 0;
    for i := 0 to |outs|
      invariant !possible ==> forall k :: 0 <= k < i ==> !Candidate(outs[k], expectedTag)
      invariant possible ==>
                  && at < i && Candidate(outs[at], expectedTag)
                  && forall k :: 0 <= k < i && k != at ==> !Candidate(outs[k], expectedTag)
    {
      var data := GetV0OpReturnBytes(outs[i]);
      if data.None? {
        continue;
      }
      if data.value[..TagLen] != expectedTag {
        continue;
      }
      if data.value[TagLen] != 0 {
        continue;
      }
      if possible {
        assert Candidate(outs[i], expectedTag) && Candidate(outs[at], expectedTag);
        return false;
      }
      possible := true;
      at := i;
    }
    assert possible ==> OnlyCandidate(outs, expectedTag, at);
  }

  /** The filter passes a transaction that parses under a tag exactly when no other output
      carries the tag and version 0 with keys that do not parse. */
  lemma FilterAgreesWithParser(tp: Taproot, c: Group, outs: seq<TxOut>, covenantKeys: seq<Point>, quorum: uint32, p: ParsedTx)
    requires c.Valid() && ParsesTo(tp, c, outs, covenantKeys, quorum, p)
    ensures (exists i :: OnlyCandidate(outs, p.data.tag, i))
            <==> forall k :: 0 <= k < |outs| && Candidate(outs[k], p.data.tag) ==> ParseOutput(c, outs[k]).Some?
  {
    hide GetV0OpReturnBytes, StakingPkScript;
    assert Candidate(outs[p.opReturnIdx], p.data.tag);
    if forall k :: 0 <= k < |outs| && Candidate(outs[k], p.data.tag) ==> ParseOutput(c, outs[k]).Some? {
      assert OnlyCandidate(outs, p.data.tag, p.opReturnIdx);
    }
  }

  /** An output with the tag and version 0 whose keys are the X coordinate of infinity. */
  function Decoy(c: Group, tag: Bytes): (out: TxOut)
    requires |tag| == TagLen && |c.x(Infinity)| == CoordinateLen
  {
    TxOut(0, NullDataScript(tag + [0] + c.x(Infinity) + c.x(Infinity) + [0, 0]))
  }

  lemma DecoyIsCandidate(c: Group, tag: Bytes)
    requires c.Valid() && |tag| == TagLen
    ensures Candidate(Decoy(c, tag), tag) && ParseOutput(c, Decoy(c, tag)).None?
  {
    LiftOfInfinity(c);
    hide Group.Valid, GetV0OpReturnBytes, NullDataScript;
    var data := tag + [0] + c.x(Infinity) + c.x(Infinity) + [0, 0];
    NullDataBytes(data, 0);
    assert data[..TagLen] == tag && data[TagLen] == 0 && data[5..37] == c.x(Infinity);
  }

  lemma DataTagLen(c: Group, out: TxOut)
    requires ParseOutput(c, out).Some?
    ensures |ParseOutput(c, out).value.tag| == TagLen
  {
    hide SinglePush, FromBE;
  }

  /** The filter does drop parseable transactions: one more output, with keys that do not parse,
      leaves any staking transaction parseable and makes the filter refuse it. */
  lemma FilterDropsParseable(tp: Taproot, c: Group, outs: seq<TxOut>, covenantKeys: seq<Point>, quorum: uint32, p: ParsedTx)
    requires c.Valid() && ParsesTo(tp, c, outs, covenantKeys, quorum, p)
    ensures |p.data.tag| == TagLen
    ensures Decoy(c, p.data.tag).pkScript != p.stakingOutput.pkScript ==>
              var more := outs + [Decoy(c, p.data.tag)];
              && ParsesTo(tp, c, more, covenantKeys, quorum, p)
              && forall i :: !OnlyCandidate(more, p.data.tag, i)
  {
    DataTagLen(c, p.opReturnOutput);
    var decoy := Decoy(c, p.data.tag);
    DecoyIsCandidate(c, p.data.tag);
    hide StakingPkScript, Decoy, GetV0OpReturnBytes, Group.Valid;
    var more := outs + [decoy];
    assert Candidate(more[p.opReturnIdx], p.data.tag) by { assert more[p.opReturnIdx] == outs[p.opReturnIdx]; }
    assert Candidate(more[|outs|], p.data.tag);
    hide ParseOutput, Candidate;
    assert forall k :: 0 <= k < |outs| ==> more[k] == outs[k];
  }
}
