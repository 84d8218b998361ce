/** Types shared by every module: option and result values, bytes and the integers they denote. */
module Prelude {

  datatype Option<+T> = None | Some(value: T)

  datatype Result<+T, +E> = Ok(value: T) | Err(error: E)

  type byte = x: nat | x < 256

  type Bytes = seq<byte>

  type uint16 = x: nat | x < 0x1_0000

  type uint32 = x: nat | x < 0x1_0000_0000

  ghost predicate Distinct(s: seq<Bytes>) {
    forall i, j :: 0 <= i < j < |s| ==> s[i] != s[j]
  }

  /** 256 to the power of `len`: the number of `len`-byte strings. */
  function Pow256(len: nat): (r: nat)
    ensures r > 0
  {
    if len == 0 then 1 else 256 * Pow256(len - 1)
  }

  /** The big-endian encoding of `v` in exactly `len` bytes (high bytes are dropped). */
  function ToBE(v: nat, len: nat): (b: Bytes)
    ensures |b| == len
    decreases len, v
  {
    if len == 0 then [] else ToBE(v / 256, len - 1) + [v % 256]
  }

  /** The unsigned integer a byte string denotes in big-endian order. */
  function FromBE(b: Bytes): (v: nat)
    ensures v < Pow256(|b|)
  {
    if b == [] then 0 else 256 * FromBE(b[..|b| - 1]) + b[|b| - 1]
  }

  /** The unsigned integer a byte string denotes in little-endian order. */
  function FromLE(b: Bytes): (v: nat) {
    if b == [] then 0 else b[0] + 256 * FromLE(b[1..])
  }

  lemma {:induction false} FromToBE(v: nat, len: nat)
    requires v < Pow256(len)
    ensures FromBE(ToBE(v, len)) == v
  {
    if len > 0 {
      FromToBE(v / 256, len - 1);
      var b := ToBE(v, len);
      assert b[..|b| - 1] == ToBE(v / 256, len - 1);
    }
  }

  lemma {:induction false} ToFromBE(b: Bytes)
    ensures ToBE(FromBE(b), |b|) == b
  {
    if b != [] {
      var front, last := b[..|b| - 1], b[|b| - 1];
      ToFromBE(front);
      LastByte(FromBE(front), last);
      assert front + [last] == b;
    }
  }

  lemma LastByte(q: nat, r: byte)
    ensures (256 * q + r) / 256 == q && (256 * q + r) % 256 == r
  {
  }

  /** Big-endian encodings of one length are different for different integers in range. */
  lemma ToBEInjective(v: nat, w: nat, len: nat)
    requires v < Pow256(len) && w < Pow256(len)
    requires ToBE(v, len) == ToBE(w, len)
    ensures v == w
  {
    FromToBE(v, len);
    FromToBE(w, len);
  }

  /** The little-endian encoding of `v` in exactly `len` bytes. */
  function ToLE(v: nat, len: nat): (b: Bytes)
    ensures |b| == len
  {
    if len == 0 then [] else [v % 256] + ToLE(v / 256, len - 1)
  }

  lemma {:induction false} FromToLE(v: nat, len: nat)
    requires v < Pow256(len)
    ensures FromLE(ToLE(v, len)) == v
  {
    if len > 0 {
      FromToLE(v / 256, len - 1);
      assert ToLE(v, len)[1..] == ToLE(v / 256, len - 1);
    }
  }

  lemma {:induction false} ToFromLE(b: Bytes)
    ensures ToLE(FromLE(b), |b|) == b
    ensures FromLE(b) < Pow256(|b|)
  {
    if b != [] {
      ToFromLE(b[1..]);
      LastByte(FromLE(b[1..]), b[0]);
      assert b == [b[0]] + b[1..];
    }
  }
}
