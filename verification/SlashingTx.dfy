/** Building and checking slashing transactions (btcstaking/staking.go). */
module SlashingTx {
  import Script
  import opened Prelude
  import opened Curve
  import opened StakingScripts
  import opened Taproot

  type int64 = x: int | -0x8000_0000_0000_0000 <= x < 0x8000_0000_0000_0000

  /** The int64 that arithmetic on int64 leaves behind. */
  function Wrap64(x: int): (r: int64) {
    (x + 0x8000_0000_0000_0000) % 0x1_0000_0000_0000_0000 - 0x8000_0000_0000_0000
  }

  // ----- transactions -----

  datatype OutPoint = OutPoint(hash: Bytes, index: uint32)

  datatype TxIn = TxIn(prev: OutPoint, signatureScript: Bytes, wit: seq<Bytes>, sequence: uint32)

  datatype MsgTx = MsgTx(version: int, ins: seq<TxIn>, outs: seq<TxOut>, lockTime: uint32)

  const MaxTxInSequenceNum: uint32 := 0xffff_ffff
  const MaxSatoshi := 2_100_000_000_000_000
  const MaxBlockBaseSize := 1_000_000
  const MaxTxVersion := 2
  const MaxStandardTxWeight := 400_000

  function VarIntLen(n: nat): (len: nat) {
    if n < 0xfd then 1 else if n <= 0xffff then 3 else if n <= 0xffff_ffff then 5 else 9
  }

  function InsSize(ins: seq<TxIn>): (n: nat) {
    if ins == [] then 0
    else 40 + VarIntLen(|ins[0].signatureScript|) + |ins[0].signatureScript| + InsSize(ins[1..])
  }

  function OutsSize(outs: seq<TxOut>): (n: nat) {
    if outs == [] then 0
    else 8 + VarIntLen(|outs[0].pkScript|) + |outs[0].pkScript| + OutsSize(outs[1..])
  }

  /** Size without witness data. */
  function BaseSize(tx: MsgTx): (n: nat) {
    8 + VarIntLen(|tx.ins|) + VarIntLen(|tx.outs|) + InsSize(tx.ins) + OutsSize(tx.outs)
  }

  function ItemsSize(items: seq<Bytes>): (n: nat) {
    if items == [] then 0 else VarIntLen(|items[0]|) + |items[0]| + ItemsSize(items[1..])
  }

  function WitsSize(ins: seq<TxIn>): (n: nat) {
    if ins == [] then 0 else VarIntLen(|ins[0].wit|) + ItemsSize(ins[0].wit) + WitsSize(ins[1..])
  }

  predicate HasWitness(tx: MsgTx) {
    exists i :: 0 <= i < |tx.ins| && tx.ins[i].wit != []
  }

  function Weight(tx: MsgTx): (w: nat) {
    4 * BaseSize(tx) + if HasWitness(tx) then 2 + WitsSize(tx.ins) else 0
  }

  function SumOut(outs: seq<TxOut>): (s: int) {
    if outs == [] then 0 else outs[0].value + SumOut(outs[1..])
  }

  predicate IsNullOutpoint(o: OutPoint) {
    o.index == 0xffff_ffff && forall i :: 0 <= i < |o.hash| ==> o.hash[i] == 0
  }

  /** `blockchain.CheckTransactionSanity` */
  predicate Sane(tx: MsgTx) {
    && tx.ins != [] && tx.outs != []
    && BaseSize(tx) <= MaxBlockBaseSize
    && (forall i :: 0 <= i < |tx.outs| ==> 0 <= tx.outs[i].value <= MaxSatoshi)
    && SumOut(tx.outs) <= MaxSatoshi
    && (forall i, j :: 0 <= i < j < |tx.ins| ==> tx.ins[i].prev != tx.ins[j].prev)
    && (if |tx.ins| == 1 && IsNullOutpoint(tx.ins[0].prev)
        then 2 <= |tx.ins[0].signatureScript| <= 100
        else forall i :: 0 <= i < |tx.ins| ==> !IsNullOutpoint(tx.ins[i].prev))
  }

  /** Functions of btcd that builder and checker call with the same arguments. */
  datatype Btc = Btc(
    mulRate: (int, int) -> int,     // Amount.MulF64, rounded to a whole amount
    isDust: TxOut -> bool,
    txHash: MsgTx -> Bytes,
    tp: Taproot
  ) {
    /** A share of an amount is at most the amount. */
    ghost predicate Valid() {
      forall a: int, r: int :: 0 <= a && IsSlashingRateValid(r) ==> 0 <= mulRate(a, r) <= a
    }
  }

  predicate IsOPReturn(script: Bytes) {
    |script| > 0 && script[0] == Script.OP_RETURN
  }

  // ----- the slashing rate -----

  /** Decimals have 18 digits after the point. */
  const Precision := 1_000_000_000_000_000_000

  /** Product of two non-negative decimals, rounded half to even. */
  function DecMul(a: nat, b: nat): (r: nat) {
    var q, rem := (a * b) / Precision, (a * b) % Precision;
    if 2 * rem < Precision || (2 * rem == Precision && q % 2 == 0) then q else q + 1
  }

  function DecTruncate(a: nat): (r: nat) {
    a / Precision * Precision
  }

  predicate IsSlashingRateValid(rate: int) {
    if rate <= 0 || rate >= Precision then false
    else
      var multiplied := DecMul(rate, 10000 * Precision);
      multiplied == DecTruncate(multiplied)
  }

  /** Valid rates are exactly the multiples of one ten-thousandth strictly between 0 and 1. */
  lemma SlashingRateMeaning(rate: int)
    ensures IsSlashingRateValid(rate) <==> 0 < rate < Precision && rate % 100_000_000_000_000 == 0
  {
    if 0 < rate < Precision {
      assert rate * (10000 * Precision) == Precision * (rate * 10000);
      assert DecMul(rate, 10000 * Precision) == rate * 10000;
    }
  }

  // ----- building -----

  datatype Error =
    | StakingAmountNotPositive
    | InvalidSlashingRate
    | EmptySlashingScript
    | InsufficientSlashingAmount
    | InsufficientChangeAmount
    | DustOutputFound
    | BadOutputIndex
    | NotTaproot
    | NotSane
    | WrongInputCount
    | WrongOutputCount
    | HasLockTime
    | BadVersion
    | TooHeavy
    | Replaceable
    | HasSignatureScript
    | SlashesTooLittle
    | WrongSlashingScript
    | WrongChangeScript
    | ValuesNotPositive
    | SpendsTooMuch
    | FeeTooSmall
    | MinFeeNotPositive
    | WrongFundingTx

  predicate NoDust(btc: Btc, outs: seq<TxOut>) {
    forall i :: 0 <= i < |outs| ==> IsOPReturn(outs[i].pkScript) || !btc.isDust(outs[i])
  }

  method CheckDust(btc: Btc, outs: seq<TxOut>) returns (dust: bool)
    ensures dust <==> !NoDust(btc, outs)
  {
    for i := 0 to |outs|
      invariant NoDust(btc, outs[..i])
    {
      if IsOPReturn(outs[i].pkScript) {
        continue;
      }
      if btc.isDust(outs[i]) {
        return true;
      }
    }
    assert outs[..|outs|] == outs;
    return false;
  }

  /** The output script that locks the staker's change for `lockTime` blocks. */
  function ChangeScript(btc: Btc, c: Group, stakerPk: Point, lockTime: uint16): (s: Bytes)
    requires |c.x(stakerPk)| == 32
  {
    btc.tp.outputScript([TimeLockBytes(c.x(stakerPk), lockTime)])
  }

  function SlashingOuts(slashing: int, slashingPkScript: Bytes, change: int, changeScript: Bytes): (outs: seq<TxOut>) {
    [TxOut(slashing, slashingPkScript), TxOut(change, changeScript)]
  }

  method BuildSlashingTxFromOutpoint(btc: Btc, stakingOutput: OutPoint, stakingAmount: int64, fee: int64,
                                     slashingPkScript: Bytes, changeScript: Bytes, slashingRate: int)
    returns (res: Result<MsgTx, Error>)
    requires btc.Valid()
    ensures res == BuiltTx(btc, stakingOutput, stakingAmount, fee, slashingPkScript, changeScript, slashingRate)
  {
    if stakingAmount <= 0 {
      return Err(StakingAmountNotPositive);
    }
    if !IsSlashingRateValid(slashingRate) {
      return Err(InvalidSlashingRate);
    }
    if |slashingPkScript| == 0 {
      return Err(EmptySlashingScript);
    }
    var slashingAmount := btc.mulRate(stakingAmount, slashingRate);
    if slashingAmount <= 0 {
      return Err(InsufficientSlashingAmount);
    }
    var changeAmount: int64 := stakingAmount - slashingAmount;
    changeAmount := Wrap64(changeAmount - fee);
    if changeAmount <= 0 {
      return Err(InsufficientChangeAmount);
    }
    var tx := MsgTx(1, [], [], 0);
    tx := tx.(ins := tx.ins + [TxIn(stakingOutput, [], [], MaxTxInSequenceNum)]);
    tx := tx.(outs := tx.outs + [TxOut(slashingAmount, slashingPkScript)]);
    tx := tx.(outs := tx.outs + [TxOut(changeAmount, changeScript)]);
    assert tx.outs == SlashingOuts(slashingAmount, slashingPkScript, changeAmount, changeScript);
    assert tx.ins == [TxIn(stakingOutput, [], [], MaxTxInSequenceNum)];
    var dust := CheckDust(btc, tx.outs);
    if dust {
      return Err(DustOutputFound);
    }
    return Ok(tx);
  }

  function BuiltTx(btc: Btc, stakingOutput: OutPoint, stakingAmount: int64, fee: int64,
                   slashingPkScript: Bytes, changeScript: Bytes, slashingRate: int): (res: Result<MsgTx, Error>)
  {
    var slashing := btc.mulRate(stakingAmount, slashingRate);
    var change := Wrap64(stakingAmount - slashing - fee);
    var outs := SlashingOuts(slashing, slashingPkScript, change, changeScript);
    if stakingAmount <= 0 then Err(StakingAmountNotPositive)
    else if !IsSlashingRateValid(slashingRate) then Err(InvalidSlashingRate)
    else if slashingPkScript == [] then Err(EmptySlashingScript)
    else if slashing <= 0 then Err(InsufficientSlashingAmount)
    else if change <= 0 then Err(InsufficientChangeAmount)
    else if !NoDust(btc, outs) then Err(DustOutputFound)
    else Ok(MsgTx(1, [TxIn(stakingOutput, [], [], MaxTxInSequenceNum)], outs, 0))
  }

  predicate IsPayToTaproot(script: Bytes) {
    |script| == 34 && script[0] == 0x51 && script[1] == 0x20
  }

  /** Amounts on the wire are int64. */
  predicate WireTx(tx: MsgTx) {
    forall i :: 0 <= i < |tx.outs| ==> -0x8000_0000_0000_0000 <= tx.outs[i].value < 0x8000_0000_0000_0000
  }

  function BuildSlashingTxFromStakingTxStrict(btc: Btc, c: Group, stakingTx: MsgTx, stakingOutputIdx: uint32,
                                              slashingPkScript: Bytes, stakerPk: Point, changeLockTime: uint16,
                                              fee: int64, slashingRate: int): (res: Result<MsgTx, Error>)
    requires WireTx(stakingTx) && |c.x(stakerPk)| == 32
  {
    if stakingOutputIdx >= |stakingTx.outs| then Err(BadOutputIndex)
    else if !IsPayToTaproot(stakingTx.outs[stakingOutputIdx].pkScript) then Err(NotTaproot)
    else
      BuiltTx(btc, OutPoint(btc.txHash(stakingTx), stakingOutputIdx), stakingTx.outs[stakingOutputIdx].value, fee,
              slashingPkScript, ChangeScript(btc, c, stakerPk, changeLockTime), slashingRate)
  }

  // ----- checking -----

  predicate PreSignedSane(tx: MsgTx, numInputs: nat, numOutputs: nat, minVersion: int, maxVersion: int) {
    && Sane(tx)
    && |tx.ins| == numInputs && |tx.outs| == numOutputs
    && tx.lockTime == 0
    && minVersion <= tx.version <= maxVersion
    && Weight(tx) <= MaxStandardTxWeight
    && forall i :: 0 <= i < |tx.ins| ==> tx.ins[i].sequence == MaxTxInSequenceNum && tx.ins[i].signatureScript == []
  }

  method CheckPreSignedTxSanity(tx: MsgTx, numInputs: uint32, numOutputs: uint32, minVersion: int, maxVersion: int)
    returns (err: Option<Error>)
    ensures err.None? <==> PreSignedSane(tx, numInputs, numOutputs, minVersion, maxVersion)
  {
    hide Sane, Weight;
    if !Sane(tx) {
      return Some(NotSane);
    }
    if |tx.ins| != numInputs {
      return Some(WrongInputCount);
    }
    if |tx.outs| != numOutputs {
      return Some(WrongOutputCount);
    }
    if tx.lockTime != 0 {
      return Some(HasLockTime);
    }
    if tx.version > maxVersion || tx.version < minVersion {
      return Some(BadVersion);
    }
    if Weight(tx) > MaxStandardTxWeight {
      return Some(TooHeavy);
    }
    for i := 0 to |tx.ins|
      invariant forall j :: 0 <= j < i ==> tx.ins[j].sequence == MaxTxInSequenceNum && tx.ins[j].signatureScript == []
    {
      if tx.ins[i].sequence != MaxTxInSequenceNum {
        return Some(Replaceable);
      }
      if |tx.ins[i].signatureScript| != 0 {
        return Some(HasSignatureScript);
      }
    }
    return None;
  }

  /** What makes a slashing transaction good for a staking output of `stakingValue`: it is a
      final transaction with one input and two outputs, pays at least the rounded share to
      the slashing script and the rest to the staker's lock, and leaves at least the minimum fee. */
  predicate SlashingTxGood(btc: Btc, c: Group, tx: MsgTx, slashingPkScript: Bytes, rate: int, minFee: int,
                           stakingValue: int, stakerPk: Point, changeLockTime: uint16)
    requires |c.x(stakerPk)| == 32
  {
    && PreSignedSane(tx, 1, 2, 1, MaxTxVersion)
    && tx.outs[0].value >= btc.mulRate(stakingValue, rate)
    && tx.outs[0].pkScript == slashingPkScript
    && tx.outs[1].pkScript == ChangeScript(btc, c, stakerPk, changeLockTime)
    && NoDust(btc, tx.outs)
    && tx.outs[0].value > 0 && stakingValue > 0
    && var fee := stakingValue - (tx.outs[0].value + tx.outs[1].value);
       fee > 0 && fee >= minFee
  }

  method ValidateSlashingTx(btc: Btc, c: Group, slashingTx: MsgTx, slashingPkScript: Bytes, slashingRate: int,
                            slashingTxMinFee: int64, stakingOutputValue: int64, stakerPk: Point, changeLockTime: uint16)
    returns (err: Option<Error>)
    requires |c.x(stakerPk)| == 32
    ensures err.None? <==> SlashingTxGood(btc, c, slashingTx, slashingPkScript, slashingRate, slashingTxMinFee,
                                          stakingOutputValue, stakerPk, changeLockTime)
  {
    var sanity := CheckPreSignedTxSanity(slashingTx, 1, 2, 1, MaxTxVersion);
    if sanity.Some? {
      return sanity;
    }
    var minSlashingAmount := btc.mulRate(stakingOutputValue, slashingRate);
    if slashingTx.outs[0].value < minSlashingAmount {
      return Some(SlashesTooLittle);
    }
    if slashingTx.outs[0].pkScript != slashingPkScript {
      return Some(WrongSlashingScript);
    }
    if slashingTx.outs[1].pkScript != ChangeScript(btc, c, stakerPk, changeLockTime) {
      return Some(WrongChangeScript);
    }
    var dust := CheckDust(btc, slashingTx.outs);
    if dust {
      return Some(DustOutputFound);
    }
    if slashingTx.outs[0].value <= 0 || stakingOutputValue <= 0 {
      return Some(ValuesNotPositive);
    }
    var slashingTxOutSum: int64 := 0;
    for i := 0 to |slashingTx.outs|
      invariant i == 0 ==> slashingTxOutSum == 0
      invariant i == 1 ==> slashingTxOutSum == slashingTx.outs[0].value
      invariant i == 2 ==> slashingTxOutSum == slashingTx.outs[0].value + slashingTx.outs[1].value
    {
      slashingTxOutSum := Wrap64(slashingTxOutSum + slashingTx.outs[i].value);
    }
    if stakingOutputValue <= slashingTxOutSum {
      return Some(SpendsTooMuch);
    }
    if Wrap64(stakingOutputValue - slashingTxOutSum) < slashingTxMinFee {
      return Some(FeeTooSmall);
    }
    return None;
  }

  predicate MatchesFunding(btc: Btc, c: Group, slashingTx: MsgTx, fundingTx: MsgTx, fundingOutputIdx: uint32,
                           minFee: int, rate: int, slashingPkScript: Bytes, stakerPk: Point, changeLockTime: uint16)
    requires |c.x(stakerPk)| == 32
  {
    && Sane(fundingTx)
    && minFee > 0
    && IsSlashingRateValid(rate)
    && fundingOutputIdx < |fundingTx.outs|
    && SlashingTxGood(btc, c, slashingTx, slashingPkScript, rate, minFee, fundingTx.outs[fundingOutputIdx].value,
                      stakerPk, changeLockTime)
    && slashingTx.ins[0].prev == OutPoint(btc.txHash(fundingTx), fundingOutputIdx)
  }

  method CheckSlashingTxMatchFundingTx(btc: Btc, c: Group, slashingTx: MsgTx, fundingTx: MsgTx, fundingOutputIdx: uint32,
                                       slashingTxMinFee: int64, slashingRate: int, slashingPkScript: Bytes,
                                       stakerPk: Point, changeLockTime: uint16)
    returns (err: Option<Error>)
    requires WireTx(fundingTx) && |c.x(stakerPk)| == 32
    ensures err.None? <==> MatchesFunding(btc, c, slashingTx, fundingTx, fundingOutputIdx, slashingTxMinFee,
                                          slashingRate, slashingPkScript, stakerPk, changeLockTime)
  {
    hide Sane, IsSlashingRateValid;
    if !Sane(fundingTx) {
      return Some(NotSane);
    }
    if slashingTxMinFee <= 0 {
      return Some(MinFeeNotPositive);
    }
    if !IsSlashingRateValid(slashingRate) {
      return Some(InvalidSlashingRate);
    }
    if fundingOutputIdx >= |fundingTx.outs| {
      return Some(BadOutputIndex);
    }
    var stakingOutput := fundingTx.outs[fundingOutputIdx];
    err := ValidateSlashingTx(btc, c, slashingTx, slashingPkScript, slashingRate, slashingTxMinFee,
                              stakingOutput.value, stakerPk, changeLockTime);
    if err.Some? {
      return err;
    }
    if slashingTx.ins[0].prev.hash != btc.txHash(fundingTx) {
      return Some(WrongFundingTx);
    }
    if slashingTx.ins[0].prev.index != fundingOutputIdx {
      return Some(WrongFundingTx);
    }
    return None;
  }

  // ----- builder and checker -----

  /** The longest slashing script that keeps a slashing transaction within the weight limit. */
  const MaxSlashingScriptLen := 99_893

  lemma BuiltSize(stakingOutput: OutPoint, slashing: int, slashingPkScript: Bytes, change: int, changeScript: Bytes)
    requires |changeScript| == 34
    ensures var tx := MsgTx(1, [TxIn(stakingOutput, [], [], MaxTxInSequenceNum)],
                            SlashingOuts(slashing, slashingPkScript, change, changeScript), 0);
            && BaseSize(tx) == 102 + VarIntLen(|slashingPkScript|) + |slashingPkScript|
            && Weight(tx) == 4 * BaseSize(tx)
            && SumOut(tx.outs) == slashing + change
  {
    var ins := [TxIn(stakingOutput, [], [], MaxTxInSequenceNum)];
    var outs := SlashingOuts(slashing, slashingPkScript, change, changeScript);
    assert ins[1..] == [] && outs[1..] == [outs[1]] && outs[1..][1..] == [];
    assert InsSize(ins) == 41 + InsSize([]);
    assert OutsSize(outs[1..]) == 43 + OutsSize([]);
    assert SumOut(outs[1..]) == change + SumOut([]);
  }

  /** A built transaction passes the checker under the same parameters exactly when the
      funding transaction is sane, the fee is at least the (positive) minimum fee, and the
      slashing script fits the weight limit. */
  lemma BuilderCheckerAgree(btc: Btc, c: Group, stakingTx: MsgTx, idx: uint32, slashingPkScript: Bytes, stakerPk: Point,
                            changeLockTime: uint16, fee: int64, rate: int, minFee: int64)
    requires btc.Valid() && c.Valid() && WireTx(stakingTx)
    requires |ChangeScript(btc, c, stakerPk, changeLockTime)| == 34
    requires BuildSlashingTxFromStakingTxStrict(btc, c, stakingTx, idx, slashingPkScript, stakerPk, changeLockTime, fee, rate).Ok?
    ensures var tx := BuildSlashingTxFromStakingTxStrict(btc, c, stakingTx, idx, slashingPkScript, stakerPk,
                                                         changeLockTime, fee, rate).value;
            MatchesFunding(btc, c, tx, stakingTx, idx, minFee, rate, slashingPkScript, stakerPk, changeLockTime)
            <==> Sane(stakingTx) && 0 < minFee <= fee && |slashingPkScript| <= MaxSlashingScriptLen
  {
    hide Sane, ChangeScript, IsSlashingRateValid, NoDust, Wrap64, IsNullOutpoint, WireTx, SlashingTxGood, SlashingOuts,
      Group.Valid;
    Sizes(c, stakerPk);
    if Sane(stakingTx) {
      var staking := stakingTx.outs[idx].value;
      SaneOutput(stakingTx, idx, btc.txHash(stakingTx));
      NoWrap(staking, btc.mulRate(staking, rate), fee);
      GoodOnBuilt(btc, c, OutPoint(btc.txHash(stakingTx), idx), staking, fee, slashingPkScript, rate, minFee, stakerPk,
                  changeLockTime);
    }
  }

  lemma GoodOnBuilt(btc: Btc, c: Group, prev: OutPoint, staking: int, fee: int, slashingPkScript: Bytes, rate: int,
                    minFee: int, stakerPk: Point, changeLockTime: uint16)
    requires |c.x(stakerPk)| == 32 && |ChangeScript(btc, c, stakerPk, changeLockTime)| == 34 && !IsNullOutpoint(prev)
    requires var slashing := btc.mulRate(staking, rate);
             && 0 < slashing && 0 < staking - slashing - fee && staking <= MaxSatoshi
             && NoDust(btc, SlashingOuts(slashing, slashingPkScript, staking - slashing - fee,
                                         ChangeScript(btc, c, stakerPk, changeLockTime)))
    ensures var slashing := btc.mulRate(staking, rate);
            SlashingTxGood(btc, c, MsgTx(1, [TxIn(prev, [], [], MaxTxInSequenceNum)],
                                         SlashingOuts(slashing, slashingPkScript, staking - slashing - fee,
                                                      ChangeScript(btc, c, stakerPk, changeLockTime)), 0),
                           slashingPkScript, rate, minFee, staking, stakerPk, changeLockTime)
            <==> 0 < fee && minFee <= fee && |slashingPkScript| <= MaxSlashingScriptLen
  {
    hide PreSignedSane, ChangeScript, NoDust, IsNullOutpoint;
    if 0 < fee {
      var slashing := btc.mulRate(staking, rate);
      BuiltPreSigned(prev, slashing, slashingPkScript, staking - slashing - fee,
                     ChangeScript(btc, c, stakerPk, changeLockTime));
    }
  }

  /** A built transaction is a sane pre-signed one exactly when its script fits the weight limit. */
  lemma BuiltPreSigned(prev: OutPoint, slashing: nat, slashingPkScript: Bytes, change: nat, changeScript: Bytes)
    requires |changeScript| == 34 && slashing + change <= MaxSatoshi && !IsNullOutpoint(prev)
    ensures PreSignedSane(MsgTx(1, [TxIn(prev, [], [], MaxTxInSequenceNum)],
                                SlashingOuts(slashing, slashingPkScript, change, changeScript), 0),
                          1, 2, 1, MaxTxVersion)
            <==> |slashingPkScript| <= MaxSlashingScriptLen
  {
    hide BaseSize, Weight, SumOut, IsNullOutpoint;
    BuiltSize(prev, slashing, slashingPkScript, change, changeScript);
  }

  /** On sane amounts a positive change is the exact rest. */
  lemma NoWrap(staking: int, slashing: int, fee: int64)
    requires 0 <= slashing <= staking <= MaxSatoshi && Wrap64(staking - slashing - fee) > 0
    ensures Wrap64(staking - slashing - fee) == staking - slashing - fee
  {
  }

  lemma SaneOutput(tx: MsgTx, idx: uint32, hash: Bytes)
    requires Sane(tx) && idx < |tx.outs|
    ensures 0 <= tx.outs[idx].value <= MaxSatoshi && !IsNullOutpoint(OutPoint(hash, idx))
  {
    IndexIsSmall(tx, idx);
  }

  /** For a fee that is not negative, a slashing transaction is built exactly if the output is a
      Taproot output that holds something, the rate is valid, the slashing script is not empty,
      the share and what is left after the fee are positive, and neither output is dust. It then
      pays the share to the slashing script and the rest to the staker's timelock. */
  lemma BuilderSucceeds(btc: Btc, c: Group, stakingTx: MsgTx, idx: uint32, slashingPkScript: Bytes, stakerPk: Point,
                        changeLockTime: uint16, fee: int64, rate: int)
    requires btc.Valid() && WireTx(stakingTx) && |c.x(stakerPk)| == 32 && fee >= 0
    ensures var res := BuildSlashingTxFromStakingTxStrict(btc, c, stakingTx, idx, slashingPkScript, stakerPk,
                                                          changeLockTime, fee, rate);
            var lock := btc.tp.outputScript([TimeLockBytes(c.x(stakerPk), changeLockTime)]);
            && (res.Ok? <==>
                  && idx < |stakingTx.outs| && |stakingTx.outs[idx].pkScript| == 34
                  && stakingTx.outs[idx].pkScript[..2] == [0x51, 0x20]
                  && 0 < rate < Precision && rate % 100_000_000_000_000 == 0 && slashingPkScript != []
                  && var staked := stakingTx.outs[idx].value;
                     var share := btc.mulRate(staked, rate);
                     && 0 < staked && 0 < share && 0 < staked - share - fee
                     && Payable(btc, TxOut(share, slashingPkScript)) && Payable(btc, TxOut(staked - share - fee, lock)))
            && (res.Ok? ==>
                  var staked := stakingTx.outs[idx].value;
                  var share := btc.mulRate(staked, rate);
                  && res.value.outs == [TxOut(share, slashingPkScript), TxOut(staked - share - fee, lock)]
                  && res.value.ins == [TxIn(OutPoint(btc.txHash(stakingTx), idx), [], [], MaxTxInSequenceNum)]
                  && res.value.version == 1 && res.value.lockTime == 0)
  {
    hide IsSlashingRateValid, IsOPReturn;
    SlashingRateMeaning(rate);
    if idx < |stakingTx.outs| {
      var staked := stakingTx.outs[idx].value;
      var share := btc.mulRate(staked, rate);
      if 0 < staked && IsSlashingRateValid(rate) {
        assert 0 <= share <= staked;
        TwoOutputs(btc, share, slashingPkScript, staked - share - fee, ChangeScript(btc, c, stakerPk, changeLockTime));
      }
    }
  }

  /** An output that is data or not dust. */
  predicate Payable(btc: Btc, out: TxOut) {
    (|out.pkScript| > 0 && out.pkScript[0] == Script.OP_RETURN) || !btc.isDust(out)
  }

  lemma TwoOutputs(btc: Btc, slashing: int, slashingPkScript: Bytes, change: int, changeScript: Bytes)
    ensures NoDust(btc, SlashingOuts(slashing, slashingPkScript, change, changeScript))
            <==> Payable(btc, TxOut(slashing, slashingPkScript)) && Payable(btc, TxOut(change, changeScript))
  {
    var outs := SlashingOuts(slashing, slashingPkScript, change, changeScript);
    assert outs[0] == TxOut(slashing, slashingPkScript) && outs[1] == TxOut(change, changeScript);
  }

  lemma {:induction false} OutsSizeBound(outs: seq<TxOut>)
    ensures OutsSize(outs) >= 9 * |outs|
  {
    if outs != [] {
      OutsSizeBound(outs[1..]);
    }
  }

  lemma IndexIsSmall(tx: MsgTx, idx: uint32)
    requires Sane(tx) && idx < |tx.outs|
    ensures idx < 0xffff_ffff
  {
    OutsSizeBound(tx.outs);
  }

  /** Every accepted slashing transaction conserves value: what the two outputs do not pay out
      of the staked amount is a fee of at least the minimum, the slashed part is at least the
      rounded share, and nothing overflows. The slashed part goes to the slashing script, the
      rest to the staker's timelock, and only a data output may be dust. */
  lemma AcceptedConservesValue(btc: Btc, c: Group, tx: MsgTx, fundingTx: MsgTx, idx: uint32, minFee: int, rate: int,
                               slashingPkScript: Bytes, stakerPk: Point, changeLockTime: uint16)
    requires btc.Valid() && |c.x(stakerPk)| == 32
    requires MatchesFunding(btc, c, tx, fundingTx, idx, minFee, rate, slashingPkScript, stakerPk, changeLockTime)
    ensures var staked, slashed, change := fundingTx.outs[idx].value, tx.outs[0].value, tx.outs[1].value;
            && staked - slashed - change >= minFee > 0
            && btc.mulRate(staked, rate) <= slashed < staked && 0 < slashed && 0 <= change < staked - slashed
            && Wrap64(slashed + change) == slashed + change
            && tx.ins == [TxIn(OutPoint(btc.txHash(fundingTx), idx), [], tx.ins[0].wit, MaxTxInSequenceNum)]
    ensures 0 < rate < Precision && rate % 100_000_000_000_000 == 0
    ensures tx.lockTime == 0 && 1 <= tx.version <= 2 && Weight(tx) <= MaxStandardTxWeight
    ensures |tx.outs| == 2 && tx.outs[0].pkScript == slashingPkScript
    ensures tx.outs[1].pkScript == btc.tp.outputScript([TimeLockBytes(c.x(stakerPk), changeLockTime)])
    ensures forall i :: 0 <= i < 2 && btc.isDust(tx.outs[i]) ==>
              tx.outs[i].pkScript != [] && tx.outs[i].pkScript[0] == Script.OP_RETURN
  {
    hide IsSlashingRateValid, BaseSize, Weight;
    SlashingRateMeaning(rate);
    var staked, slashed, change := fundingTx.outs[idx].value, tx.outs[0].value, tx.outs[1].value;
    assert tx.ins[0].sequence == MaxTxInSequenceNum && tx.ins[0].signatureScript == [];
  }
}
