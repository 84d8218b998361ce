/** The witness codec of simple BIP322 signatures (crypto/bip322/witness.go). */
module Bip322 {
  import opened Prelude

  const MaxWitnessItemsPerInput := 4_000_000
  const MaxWitnessItemSize := 4_000_000

  datatype Error = Truncated | NonCanonicalVarInt | TooManyItems | ItemTooLarge

  // ----- variable-length integers -----

  /** Bytes that follow a first byte `d`. */
  function TailLen(d: byte): (n: nat) {
    if d < 0xfd then 0 else if d == 0xfd then 2 else if d == 0xfe then 4 else 8
  }

  /** The least value that needs a tail of this length. */
  function LeastFor(tail: nat): (v: nat) {
    if tail == 0 then 0 else if tail == 2 then 0xfd else if tail == 4 then 0x1_0000 else 0x1_0000_0000
  }

  function WriteVarInt(v: nat): (b: Bytes)
    requires v < Pow256(8)
    ensures b != []
  {
    if v < 0xfd then [v]
    else if v < 0x1_0000 then [0xfd] + ToLE(v, 2)
    else if v < 0x1_0000_0000 then [0xfe] + ToLE(v, 4)
    else [0xff] + ToLE(v, 8)
  }

  /** The value and what follows it; encodings that are longer than needed are refused. */
  function ReadVarInt(b: Bytes): (res: Result<(nat, Bytes), Error>) {
    if b == [] then Err(Truncated)
    else
      var tail := TailLen(b[0]);
      if tail == 0 then Ok((b[0], b[1..]))
      else if |b| < 1 + tail then Err(Truncated)
      else
        var v := FromLE(b[1..1 + tail]);
        if v < LeastFor(tail) then Err(NonCanonicalVarInt) else Ok((v, b[1 + tail..]))
  }

  lemma Powers()
    ensures Pow256(2) == 0x1_0000 && Pow256(4) == 0x1_0000_0000 < Pow256(8)
  {
    assert Pow256(3) == 0x100_0000;
    assert Pow256(6) == 0x1_0000 * Pow256(4);
  }

  /** A number is read exactly when its canonical form is in front. */
  lemma ReadIsWritten(b: Bytes)
    requires ReadVarInt(b).Ok?
    ensures var (v, rest) := ReadVarInt(b).value;
            v < Pow256(8) && b == WriteVarInt(v) + rest
  {
    hide Pow256, FromLE, ToLE;
    Powers();
    var tail := TailLen(b[0]);
    if tail != 0 {
      ToFromLE(b[1..1 + tail]);
      assert b[1..1 + tail] + b[1 + tail..] == b[1..];
    }
    assert b == [b[0]] + b[1..];
  }

  lemma WrittenIsRead(v: nat, rest: Bytes)
    requires v < Pow256(8)
    ensures ReadVarInt(WriteVarInt(v) + rest) == Ok((v, rest))
  {
    hide Pow256, FromLE, ToLE;
    Powers();
    var b := WriteVarInt(v) + rest;
    var tail := TailLen(b[0]);
    assert |WriteVarInt(v)| == 1 + tail;
    assert b[1 + tail..] == rest;
    if tail != 0 {
      assert b[1..1 + tail] == ToLE(v, tail);
      FromToLE(v, tail);
    }
  }

  lemma ReadVarIntMeaning(b: Bytes, v: nat, rest: Bytes)
    ensures ReadVarInt(b) == Ok((v, rest)) <==> v < Pow256(8) && b == WriteVarInt(v) + rest
  {
    hide ReadVarInt, WriteVarInt, Pow256;
    if ReadVarInt(b).Ok? {
      ReadIsWritten(b);
    }
    if v < Pow256(8) {
      WrittenIsRead(v, rest);
    }
  }

  // ----- witness stacks -----

  predicate FitsVarInt(item: Bytes) {
    |item| < Pow256(8)
  }

  predicate AllFit(items: seq<Bytes>) {
    forall i :: 0 <= i < |items| ==> FitsVarInt(items[i])
  }

  predicate WithinLimits(items: seq<Bytes>) {
    |items| <= MaxWitnessItemsPerInput && forall i :: 0 <= i < |items| ==> |items[i]| <= MaxWitnessItemSize
  }

  function ItemsBytes(items: seq<Bytes>): (b: Bytes)
    requires AllFit(items)
  {
    if items == [] then [] else WriteVarInt(|items[0]|) + items[0] + ItemsBytes(items[1..])
  }

  function WitnessBytes(items: seq<Bytes>): (b: Bytes)
    requires |items| < Pow256(8) && AllFit(items)
  {
    WriteVarInt(|items|) + ItemsBytes(items)
  }

  method SerializeWitness(items: seq<Bytes>) returns (buf: Bytes)
    requires |items| < Pow256(8) && AllFit(items)
    ensures buf == WitnessBytes(items)
  {
    buf := WriteVarInt(|items|);
    for i := 0 to |items|
      invariant AllFit(items[i..]) && buf + ItemsBytes(items[i..]) == WitnessBytes(items)
    {
      assert items[i..][0] == items[i] && items[i..][1..] == items[i + 1..];
      buf := buf + WriteVarInt(|items[i]|) + items[i];
    }
    assert buf + [] == buf;
  }

  /** One item and what follows it. */
  function ReadScript(b: Bytes): (res: Result<(Bytes, Bytes), Error>) {
    match ReadVarInt(b)
    case Err(e) => Err(e)
    case Ok((count, rest)) =>
      if count > MaxWitnessItemSize then Err(ItemTooLarge)
      else if |rest| < count then Err(Truncated)
      else Ok((rest[..count], rest[count..]))
  }

  lemma ReadScriptMeaning(b: Bytes, item: Bytes, rest: Bytes)
    ensures ReadScript(b) == Ok((item, rest))
            <==> |item| <= MaxWitnessItemSize && FitsVarInt(item) && b == WriteVarInt(|item|) + item + rest
  {
    hide ReadVarInt, WriteVarInt;
    if ReadScript(b).Ok? {
      var (count, after) := ReadVarInt(b).value;
      ReadVarIntMeaning(b, count, after);
      assert after == after[..count] + after[count..];
    }
    if |item| <= MaxWitnessItemSize && FitsVarInt(item) && b == WriteVarInt(|item|) + item + rest {
      assert b == WriteVarInt(|item|) + (item + rest);
      ReadVarIntMeaning(b, |item|, item + rest);
    }
  }

  function ReadItems(b: Bytes, n: nat): (res: Result<seq<Bytes>, Error>) {
    if n == 0 then Ok([])
    else match ReadScript(b)
      case Err(e) => Err(e)
      case Ok((item, rest)) =>
        match ReadItems(rest, n - 1)
        case Err(e) => Err(e)
        case Ok(items) => Ok([item] + items)
  }

  lemma {:induction false} ReadItemsArePrefix(b: Bytes, n: nat)
    requires ReadItems(b, n).Ok? && AllFit(ReadItems(b, n).value)
    ensures var items := ReadItems(b, n).value;
            && |items| == n && (forall i :: 0 <= i < n ==> |items[i]| <= MaxWitnessItemSize)
            && ItemsBytes(items) <= b
    decreases n
  {
    hide ReadScript, WriteVarInt, FitsVarInt;
    if n > 0 {
      var items := ReadItems(b, n).value;
      var (item, rest) := ReadScript(b).value;
      assert items[0] == item && items[1..] == ReadItems(rest, n - 1).value;
      ReadScriptMeaning(b, item, rest);
      ReadItemsArePrefix(rest, n - 1);
      var tail := rest[|ItemsBytes(items[1..])|..];
      assert b == ItemsBytes(items) + tail;
    }
  }

  lemma {:induction false} PrefixIsReadItems(b: Bytes, items: seq<Bytes>)
    requires AllFit(items) && ItemsBytes(items) <= b
    requires forall i :: 0 <= i < |items| ==> |items[i]| <= MaxWitnessItemSize
    ensures ReadItems(b, |items|) == Ok(items)
    decreases |items|
  {
    hide ReadScript, WriteVarInt, FitsVarInt;
    if items != [] {
      var tail := b[|ItemsBytes(items)|..];
      var rest := ItemsBytes(items[1..]) + tail;
      assert b == WriteVarInt(|items[0]|) + items[0] + rest;
      ReadScriptMeaning(b, items[0], rest);
      PrefixIsReadItems(rest, items[1..]);
      assert items == [items[0]] + items[1..];
    }
  }

  lemma ReadItemsMeaning(b: Bytes, n: nat, items: seq<Bytes>)
    requires AllFit(items)
    ensures ReadItems(b, n) == Ok(items)
            <==> && |items| == n && (forall i :: 0 <= i < n ==> |items[i]| <= MaxWitnessItemSize)
                 && ItemsBytes(items) <= b
  {
    hide ReadItems, ItemsBytes, AllFit;
    if ReadItems(b, n) == Ok(items) {
      ReadItemsArePrefix(b, n);
    }
    if |items| == n && (forall i :: 0 <= i < n ==> |items[i]| <= MaxWitnessItemSize) && ItemsBytes(items) <= b {
      PrefixIsReadItems(b, items);
    }
  }

  function WitnessOf(sig: Bytes): (res: Result<seq<Bytes>, Error>) {
    match ReadVarInt(sig)
    case Err(e) => Err(e)
    case Ok((count, rest)) => if count > MaxWitnessItemsPerInput then Err(TooManyItems) else ReadItems(rest, count)
  }

  method SimpleSigToWitness(sig: Bytes) returns (res: Result<seq<Bytes>, Error>)
    ensures res == WitnessOf(sig)
  {
    hide ReadVarInt, ReadScript;
    var buf := sig;
    var first := ReadVarInt(buf);
    if first.Err? {
      return Err(first.error);
    }
    var witCount := first.value.0;
    buf := first.value.1;
    if witCount > MaxWitnessItemsPerInput {
      return Err(TooManyItems);
    }
    ghost var target := ReadItems(buf, witCount);
    var stack: seq<Bytes> := [];
    assert target.Ok? ==> stack + target.value == target.value;
    for j := 0 to witCount
      invariant |stack| == j
      invariant target == match ReadItems(buf, witCount - j) case Err(e) => Err(e) case Ok(items) => Ok(stack + items)
    {
      var item := ReadScript(buf);
      if item.Err? {
        return Err(item.error);
      }
      ghost var later := ReadItems(item.value.1, witCount - j - 1);
      assert later.Ok? ==> stack + ([item.value.0] + later.value) == (stack + [item.value.0]) + later.value;
      stack := stack + [item.value.0];
      buf := item.value.1;
    }
    assert stack + [] == stack;
    return Ok(stack);
  }

  /** Stacks within the limits can be serialised. */
  lemma LimitsFit(items: seq<Bytes>)
    requires WithinLimits(items)
    ensures |items| < Pow256(8) && AllFit(items)
  {
    assert Pow256(8) > MaxWitnessItemsPerInput && Pow256(8) > MaxWitnessItemSize;
  }

  /** Whatever is read is within the limit. */
  lemma {:induction false} ReadItemsLimits(b: Bytes, n: nat)
    requires ReadItems(b, n).Ok?
    ensures |ReadItems(b, n).value| == n
    ensures forall i :: 0 <= i < n ==> |ReadItems(b, n).value[i]| <= MaxWitnessItemSize
    decreases n
  {
    hide ReadVarInt;
    if n > 0 {
      ReadItemsLimits(ReadScript(b).value.1, n - 1);
    }
  }

  lemma AcceptedWithinLimits(sig: Bytes)
    requires WitnessOf(sig).Ok?
    ensures WithinLimits(WitnessOf(sig).value)
  {
    hide ReadVarInt, ReadItems;
    ReadItemsLimits(ReadVarInt(sig).value.1, ReadVarInt(sig).value.0);
  }

  /** Decoding returns a stack exactly when the stack is within the size limits and the bytes
      start with its serialisation. */
  lemma WitnessCodec(sig: Bytes, items: seq<Bytes>)
    ensures WithinLimits(items) ==> |items| < Pow256(8) && AllFit(items)
    ensures WitnessOf(sig) == Ok(items) <==> WithinLimits(items) && WitnessBytes(items) <= sig
  {
    hide ReadVarInt, WriteVarInt, FitsVarInt, ItemsBytes, ReadItems, WithinLimits;
    if WitnessOf(sig) == Ok(items) {
      AcceptedWithinLimits(sig);
      LimitsFit(items);
      var (count, rest) := ReadVarInt(sig).value;
      ReadVarIntMeaning(sig, count, rest);
      ReadItemsMeaning(rest, count, items);
      assert sig == WitnessBytes(items) + rest[|ItemsBytes(items)|..];
    }
    if WithinLimits(items) {
      LimitsFit(items);
      if WitnessBytes(items) <= sig {
        WithinReads(sig, items);
      }
    }
  }

  lemma WithinReads(sig: Bytes, items: seq<Bytes>)
    requires WithinLimits(items) && |items| < Pow256(8) && AllFit(items) && WitnessBytes(items) <= sig
    ensures WitnessOf(sig) == Ok(items)
  {
    hide ReadVarInt, WriteVarInt, FitsVarInt, ItemsBytes, ReadItems;
    var rest := ItemsBytes(items) + sig[|WitnessBytes(items)|..];
    assert sig == WriteVarInt(|items|) + rest;
    ReadVarIntMeaning(sig, |items|, rest);
    ReadItemsMeaning(rest, |items|, items);
  }

  /** Decoding undoes `SerializeWitness` for every stack within the limits, whatever follows. */
  lemma DecodeUndoesSerialize(items: seq<Bytes>, more: Bytes)
    requires WithinLimits(items)
    ensures |items| < Pow256(8) && AllFit(items)
    ensures WitnessOf(WitnessBytes(items) + more) == Ok(items)
  {
    hide WitnessOf, WitnessBytes, WithinLimits, AllFit;
    LimitsFit(items);
    WitnessCodec(WitnessBytes(items) + more, items);
  }

  /** Serialising what any accepted bytes decode to gives a prefix of those bytes. */
  lemma AcceptedIsPrefix(sig: Bytes)
    requires WitnessOf(sig).Ok?
    ensures var items := WitnessOf(sig).value;
            WithinLimits(items) && |items| < Pow256(8) && AllFit(items) && WitnessBytes(items) <= sig
  {
    hide WitnessOf, WitnessBytes, WithinLimits, AllFit;
    WitnessCodec(sig, WitnessOf(sig).value);
  }
}
