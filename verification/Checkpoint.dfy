/** The two-part checkpoint format (btctxformatter/formatter.go). */
module Checkpoint {
  import opened Prelude

  const TagLength := 4
  const CurrentVersion: byte := 0
  const HeaderLength := 5
  const BlockHashLength := 32
  const BitMapLength := 13
  const AddressLength := 20
  const FirstPartHashLength := 10
  const BlsSigLength := 48
  const EpochLength := 8
  const NumberOfParts := 2
  const FirstPartLength := HeaderLength + BlockHashLength + AddressLength + EpochLength + BitMapLength
  const SecondPartLength := HeaderLength + BlsSigLength + FirstPartHashLength
  const RawBTCCheckpointLength := EpochLength + BlockHashLength + BitMapLength + BlsSigLength + AddressLength

  datatype Error =
    | BadTag | BadVersion | BadBlockHash | BadBitMap | BadBlsSig | BadAddress
    | BadPartIndex | BadLength | TagMismatch | HeaderVersion | HeaderPart
    | NotBabylonData | BadFirstPart | BadSecondPart | PartsDoNotConnect

  type uint64 = x: nat | x < 0x1_0000_0000_0000_0000

  datatype RawBtcCheckpoint = RawBtcCheckpoint(
    epoch: uint64,
    blockHash: Bytes,
    bitMap: Bytes,
    submitterAddress: Bytes,
    blsSig: Bytes)

  /** Checkpoints the encoder accepts. */
  predicate WellFormed(ckpt: RawBtcCheckpoint) {
    && |ckpt.blockHash| == BlockHashLength && |ckpt.bitMap| == BitMapLength
    && |ckpt.blsSig| == BlsSigLength && |ckpt.submitterAddress| == AddressLength
  }

  /** SHA-256, of which only the length is used. */
  ghost predicate IsHash(sha: Bytes -> Bytes) {
    forall b: Bytes :: |sha(b)| == 32
  }

  // ----- encoding -----

  /** Version in the low four bits, part index in the high four bits. */
  function GetVerHalf(version: byte, half: byte): (b: byte) {
    version % 16 + half * 16 % 256
  }

  function EncodeHeader(tag: Bytes, version: byte, half: byte): (b: Bytes)
    ensures |b| == |tag| + 1
  {
    tag + [GetVerHalf(version, half)]
  }

  /** The first part without its header. */
  function FirstPayload(ckpt: RawBtcCheckpoint): (b: Bytes) {
    ToBE(ckpt.epoch, EpochLength) + ckpt.blockHash + ckpt.bitMap + ckpt.submitterAddress
  }

  function GetCheckSum(sha: Bytes -> Bytes, payload: Bytes): (b: Bytes)
    requires |sha(payload)| == 32
    ensures |b| == FirstPartHashLength
  {
    sha(payload)[..FirstPartHashLength]
  }

  /** The second part without its header: the signature, then a checksum of the first part. */
  function SecondPayload(sha: Bytes -> Bytes, ckpt: RawBtcCheckpoint): (b: Bytes)
    requires |sha(FirstPayload(ckpt))| == 32
  {
    ckpt.blsSig + GetCheckSum(sha, FirstPayload(ckpt))
  }

  /** The two parts byte by byte: tag, a byte whose high half is the part index, and the fields;
      the second part ends in the first ten bytes of the hash of the first part's fields. */
  ghost predicate Layout(sha: Bytes -> Bytes, tag: Bytes, ckpt: RawBtcCheckpoint, first: Bytes, second: Bytes) {
    FirstLayout(tag, ckpt, first) && SecondLayout(tag, ckpt, sha(first[5..]), second)
  }

  predicate FirstLayout(tag: Bytes, ckpt: RawBtcCheckpoint, first: Bytes) {
    && |first| == 78 && first[..4] == tag && first[4] == 0x00
    && FromBE(first[5..13]) == ckpt.epoch && first[13..45] == ckpt.blockHash
    && first[45..58] == ckpt.bitMap && first[58..] == ckpt.submitterAddress
  }

  predicate SecondLayout(tag: Bytes, ckpt: RawBtcCheckpoint, hash: Bytes, second: Bytes) {
    && |second| == 63 && second[..4] == tag && second[4] == 0x10
    && second[5..53] == ckpt.blsSig && |hash| == 32 && second[53..] == hash[..10]
  }

  method EncodeCheckpointData(sha: Bytes -> Bytes, tag: Bytes, version: byte, ckpt: RawBtcCheckpoint)
    returns (res: Result<(Bytes, Bytes), Error>)
    requires IsHash(sha)
    ensures res.Ok? <==> |tag| == TagLength && version == CurrentVersion && WellFormed(ckpt)
    ensures res.Ok? ==>
              && res.value.0 == EncodeHeader(tag, version, 0) + FirstPayload(ckpt)
              && res.value.1 == EncodeHeader(tag, version, 1) + SecondPayload(sha, ckpt)
    ensures res.Ok? ==> Layout(sha, tag, ckpt, res.value.0, res.value.1)
  {
    hide ToBE;
    if |tag| != TagLength {
      return Err(BadTag);
    }
    if version > CurrentVersion {
      return Err(BadVersion);
    }
    if |ckpt.blockHash| != BlockHashLength {
      return Err(BadBlockHash);
    }
    if |ckpt.bitMap| != BitMapLength {
      return Err(BadBitMap);
    }
    if |ckpt.blsSig| != BlsSigLength {
      return Err(BadBlsSig);
    }
    if |ckpt.submitterAddress| != AddressLength {
      return Err(BadAddress);
    }
    var first := EncodeHeader(tag, version, 0);
    first := first + ToBE(ckpt.epoch, EpochLength);
    first := first + ckpt.blockHash;
    first := first + ckpt.bitMap;
    first := first + ckpt.submitterAddress;
    var second := EncodeHeader(tag, version, 1);
    second := second + ckpt.blsSig;
    assert first[HeaderLength..] == FirstPayload(ckpt);
    second := second + GetCheckSum(sha, first[HeaderLength..]);
    assert first == EncodeHeader(tag, version, 0) + FirstPayload(ckpt);
    assert second == EncodeHeader(tag, version, 1) + SecondPayload(sha, ckpt);
    EncodedLayout(sha, tag, ckpt);
    return Ok((first, second));
  }

  // ----- recognising the parts -----

  function PartLength(part: nat): (n: nat) {
    if part == 0 then FirstPartLength else SecondPartLength
  }

  /** `data` is part `part` under `tag`: right length, right tag, and the header byte of version 0
      and this part. */
  predicate IsPart(tag: Bytes, part: byte, data: Bytes) {
    && part <= 1 && |data| == PartLength(part)
    && data[..TagLength] == tag
    && data[TagLength] == GetVerHalf(CurrentVersion, part)
  }

  function GetCheckpointData(tag: Bytes, version: byte, partIndex: byte, data: Bytes): (res: Result<Bytes, Error>)
    ensures res.Ok? <==> version == CurrentVersion && IsPart(tag, partIndex, data)
    ensures res.Ok? ==> res.value == data[HeaderLength..]
  {
    if partIndex > 1 then Err(BadPartIndex)
    else if version > CurrentVersion then Err(BadVersion)
    else if partIndex == 0 && |data| != FirstPartLength then Err(BadLength)
    else if partIndex == 1 && |data| != SecondPartLength then Err(BadLength)
    else
      var headerTag, headerVersion, headerPart := data[..TagLength], data[TagLength] % 16, data[TagLength] / 16;
      if headerTag != tag then Err(TagMismatch)
      else if headerVersion > CurrentVersion then Err(HeaderVersion)
      else if headerPart != partIndex then Err(HeaderPart)
      else Ok(data[HeaderLength..])
  }

  method IsBabylonCheckpointData(tag: Bytes, version: byte, data: Bytes) returns (res: Result<(Bytes, byte), Error>)
    ensures res.Ok? ==> version == CurrentVersion && IsPart(tag, res.value.1, data) && res.value.0 == data[HeaderLength..]
    ensures res.Err? ==> version != CurrentVersion || (!IsPart(tag, 0, data) && !IsPart(tag, 1, data))
  {
    var idx: byte := 0;
    while idx < NumberOfParts
      invariant idx <= NumberOfParts
      invariant version == CurrentVersion && idx >= 1 ==> !IsPart(tag, 0, data)
      invariant version == CurrentVersion && idx >= 2 ==> !IsPart(tag, 1, data)
    {
      var payload := GetCheckpointData(tag, version, idx, data);
      if payload.Ok? {
        return Ok((payload.value, idx));
      }
      idx := idx + 1;
    }
    return Err(NotBabylonData);
  }

  // ----- putting the parts together -----

  method ConnectParts(sha: Bytes -> Bytes, version: byte, f: Bytes, s: Bytes) returns (res: Result<Bytes, Error>)
    requires IsHash(sha)
    ensures res.Ok? <==> version == CurrentVersion && Connect(sha, f, s)
    ensures res.Ok? ==> res.value == f + s[..BlsSigLength]
  {
    if version > CurrentVersion {
      return Err(BadVersion);
    }
    if |f| != FirstPartLength - HeaderLength {
      return Err(BadFirstPart);
    }
    if |s| != SecondPartLength - HeaderLength {
      return Err(BadSecondPart);
    }
    var firstHash := sha(f);
    var hashStartIdx := |s| - FirstPartHashLength;
    var expectedHash := s[hashStartIdx..];
    if firstHash[..FirstPartHashLength] != expectedHash {
      return Err(PartsDoNotConnect);
    }
    var dst := f;
    dst := dst + s[..hashStartIdx];
    return Ok(dst);
  }

  /** Two payloads belong together. */
  ghost predicate Connect(sha: Bytes -> Bytes, f: Bytes, s: Bytes)
    requires IsHash(sha)
  {
    && |f| == FirstPartLength - HeaderLength && |s| == SecondPartLength - HeaderLength
    && s[BlsSigLength..] == sha(f)[..10]
  }

  method DecodeRawCheckpoint(version: byte, bytes: Bytes) returns (res: Result<RawBtcCheckpoint, Error>)
    ensures res.Ok? <==> version == CurrentVersion && |bytes| == RawBTCCheckpointLength
    ensures res.Ok? ==> WellFormed(res.value) && FirstPayload(res.value) + res.value.blsSig == bytes
  {
    if version > CurrentVersion {
      return Err(BadVersion);
    }
    if |bytes| != RawBTCCheckpointLength {
      return Err(BadLength);
    }
    var b := bytes;
    var epochBytes := b[..EpochLength];
    b := b[EpochLength..];
    var appHashBytes := b[..BlockHashLength];
    b := b[BlockHashLength..];
    var bitmapBytes := b[..BitMapLength];
    b := b[BitMapLength..];
    var addressBytes := b[..AddressLength];
    b := b[AddressLength..];
    var blsSigBytes := b[..BlsSigLength];
    assert Pow256(EpochLength) == 0x1_0000_0000_0000_0000 by { EpochRange(); }
    ToFromBE(epochBytes);
    res := Ok(RawBtcCheckpoint(FromBE(epochBytes), appHashBytes, bitmapBytes, addressBytes, blsSigBytes));
    assert FirstPayload(res.value) + res.value.blsSig
        == epochBytes + appHashBytes + bitmapBytes + addressBytes + blsSigBytes;
  }

  lemma EpochRange()
    ensures Pow256(EpochLength) == 0x1_0000_0000_0000_0000
  {
    assert Pow256(4) == 0x1_0000_0000;
    assert Pow256(6) == 0x1_0000_0000_0000;
  }

  // ----- the codec is a bijection -----

  lemma EncodedLayout(sha: Bytes -> Bytes, tag: Bytes, ckpt: RawBtcCheckpoint)
    requires IsHash(sha) && |tag| == TagLength && WellFormed(ckpt)
    ensures Layout(sha, tag, ckpt, EncodeHeader(tag, CurrentVersion, 0) + FirstPayload(ckpt),
                   EncodeHeader(tag, CurrentVersion, 1) + SecondPayload(sha, ckpt))
  {
    hide FirstPayload, FirstLayout, GetVerHalf;
    EncodedFirst(tag, ckpt);
    assert (EncodeHeader(tag, CurrentVersion, 0) + FirstPayload(ckpt))[5..] == FirstPayload(ckpt);
    Nibbles(1);
  }

  lemma EncodedFirst(tag: Bytes, ckpt: RawBtcCheckpoint)
    requires |tag| == TagLength && WellFormed(ckpt)
    ensures FirstLayout(tag, ckpt, EncodeHeader(tag, CurrentVersion, 0) + FirstPayload(ckpt))
  {
    hide ToBE, FromBE, Pow256, GetVerHalf;
    Nibbles(0);
    EpochRange();
    FromToBE(ckpt.epoch, EpochLength);
    var header, epoch := EncodeHeader(tag, CurrentVersion, 0), ToBE(ckpt.epoch, EpochLength);
    var first := header + FirstPayload(ckpt);
    assert first == header + epoch + ckpt.blockHash + ckpt.bitMap + ckpt.submitterAddress;
    assert first[5..13] == epoch;
  }

  lemma PayloadParts(ckpt: RawBtcCheckpoint)
    requires WellFormed(ckpt)
    ensures var b := FirstPayload(ckpt);
            && |b| == FirstPartLength - HeaderLength
            && b[..8] == ToBE(ckpt.epoch, EpochLength) && b[8..40] == ckpt.blockHash
            && b[40..53] == ckpt.bitMap && b[53..73] == ckpt.submitterAddress
  {
  }

  /** Different checkpoints have different payloads. */
  lemma PayloadInjective(a: RawBtcCheckpoint, b: RawBtcCheckpoint)
    requires WellFormed(a) && WellFormed(b)
    requires FirstPayload(a) + a.blsSig == FirstPayload(b) + b.blsSig
    ensures a == b
  {
    PayloadParts(a);
    PayloadParts(b);
    assert (FirstPayload(a) + a.blsSig)[..73] == FirstPayload(a) && (FirstPayload(a) + a.blsSig)[73..] == a.blsSig;
    assert (FirstPayload(b) + b.blsSig)[..73] == FirstPayload(b) && (FirstPayload(b) + b.blsSig)[73..] == b.blsSig;
    EpochRange();
    ToBEInjective(a.epoch, b.epoch, EpochLength);
  }

  /** Every encoded part is recognised as the part it is, and as no other. */
  lemma EncodedPartsRecognised(sha: Bytes -> Bytes, tag: Bytes, ckpt: RawBtcCheckpoint)
    requires IsHash(sha) && |tag| == TagLength && WellFormed(ckpt)
    ensures var first := EncodeHeader(tag, CurrentVersion, 0) + FirstPayload(ckpt);
            IsPart(tag, 0, first) && !IsPart(tag, 1, first)
    ensures var second := EncodeHeader(tag, CurrentVersion, 1) + SecondPayload(sha, ckpt);
            IsPart(tag, 1, second) && !IsPart(tag, 0, second)
    ensures (EncodeHeader(tag, CurrentVersion, 0) + FirstPayload(ckpt))[HeaderLength..] == FirstPayload(ckpt)
    ensures (EncodeHeader(tag, CurrentVersion, 1) + SecondPayload(sha, ckpt))[HeaderLength..] == SecondPayload(sha, ckpt)
  {
    PayloadParts(ckpt);
    PartRecognised(tag, 0, FirstPayload(ckpt));
    PartRecognised(tag, 1, SecondPayload(sha, ckpt));
  }

  lemma PartRecognised(tag: Bytes, part: byte, payload: Bytes)
    requires |tag| == TagLength && part <= 1 && |payload| == PartLength(part) - HeaderLength
    ensures var data := EncodeHeader(tag, CurrentVersion, part) + payload;
            IsPart(tag, part, data) && !IsPart(tag, 1 - part, data) && data[HeaderLength..] == payload
  {
    hide GetVerHalf;
    var half := GetVerHalf(CurrentVersion, part);
    var data := EncodeHeader(tag, CurrentVersion, part) + payload;
    assert data[..TagLength] == tag && data[TagLength] == half && data[HeaderLength..] == payload;
    assert half == 0x00 || half == 0x10 by { Nibbles(part); }
    Nibbles(part);
  }

  lemma Nibbles(part: byte)
    requires part <= 1
    ensures GetVerHalf(CurrentVersion, part) == if part == 0 then 0x00 else 0x10
  {
  }

  /** The payloads of a checkpoint connect, and two payloads that connect are those of the
      checkpoint they decode to. */
  lemma ConnectMeaning(sha: Bytes -> Bytes, f: Bytes, s: Bytes, ckpt: RawBtcCheckpoint)
    requires IsHash(sha) && WellFormed(ckpt)
    ensures Connect(sha, f, s) && f + s[..BlsSigLength] == FirstPayload(ckpt) + ckpt.blsSig
            <==> f == FirstPayload(ckpt) && s == SecondPayload(sha, ckpt)
  {
    PayloadParts(ckpt);
    var all := FirstPayload(ckpt) + ckpt.blsSig;
    assert all[..73] == FirstPayload(ckpt) && all[73..] == ckpt.blsSig;
    if Connect(sha, f, s) && f + s[..BlsSigLength] == all {
      assert (f + s[..BlsSigLength])[..73] == f && (f + s[..BlsSigLength])[73..] == s[..BlsSigLength];
      assert s == s[..BlsSigLength] + s[BlsSigLength..];
    }
  }

  /** Encode and strip the headers: the payloads. */
  method EncodeAndStrip(sha: Bytes -> Bytes, tag: Bytes, ckpt: RawBtcCheckpoint) returns (f: Bytes, s: Bytes)
    requires IsHash(sha) && |tag| == TagLength && WellFormed(ckpt)
    ensures f == FirstPayload(ckpt) && s == SecondPayload(sha, ckpt)
  {
    var encoded := EncodeCheckpointData(sha, tag, CurrentVersion, ckpt);
    EncodedPartsRecognised(sha, tag, ckpt);
    hide IsPart, EncodeHeader, FirstPayload, SecondPayload;
    var first := IsBabylonCheckpointData(tag, CurrentVersion, encoded.value.0);
    var second := IsBabylonCheckpointData(tag, CurrentVersion, encoded.value.1);
    return first.value.0, second.value.0;
  }

  /** Encode, strip the headers, connect and decode: the checkpoint comes back. */
  method RoundTrip(sha: Bytes -> Bytes, tag: Bytes, ckpt: RawBtcCheckpoint) returns (back: Result<RawBtcCheckpoint, Error>)
    requires IsHash(sha) && |tag| == TagLength && WellFormed(ckpt)
    ensures back == Ok(ckpt)
  {
    var f, s := EncodeAndStrip(sha, tag, ckpt);
    ConnectMeaning(sha, f, s, ckpt);
    var raw := ConnectParts(sha, CurrentVersion, f, s);
    assert |raw.value| == RawBTCCheckpointLength by { PayloadParts(ckpt); }
    back := DecodeRawCheckpoint(CurrentVersion, raw.value);
    PayloadInjective(back.value, ckpt);
  }

  /** Connect, decode and encode again: the payloads come back, each behind its own header. */
  method ReEncode(sha: Bytes -> Bytes, tag: Bytes, f: Bytes, s: Bytes) returns (parts: Result<(Bytes, Bytes), Error>)
    requires IsHash(sha) && |tag| == TagLength && Connect(sha, f, s)
    ensures parts.Ok?
    ensures IsPart(tag, 0, parts.value.0) && parts.value.0[HeaderLength..] == f
    ensures IsPart(tag, 1, parts.value.1) && parts.value.1[HeaderLength..] == s
  {
    var raw := ConnectParts(sha, CurrentVersion, f, s);
    var ckpt := DecodeRawCheckpoint(CurrentVersion, raw.value);
    ConnectMeaning(sha, f, s, ckpt.value);
    parts := EncodeCheckpointData(sha, tag, CurrentVersion, ckpt.value);
    EncodedPartsRecognised(sha, tag, ckpt.value);
  }
}
