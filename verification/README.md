# Babylon: slashing, transaction formats and state migrations in Dafny

Babylon lets Bitcoin holders stake by locking coins in Taproot outputs and delegating them to
finality providers. A provider that signs two blocks at one height with the same public randomness
gives its private key away; with that key anybody can complete a slashing transaction that the
staker and a covenant committee signed in advance. Around this core the chain keeps stores of
delegations, providers and reward trackers, which upgrades rewrite in place.

This project models that logic and proves, for all inputs:

- **The slashing chain.** Extractable one-time signatures, Schnorr adaptor signatures, the script
  compiler, a tapscript stack machine, witness assembly, and the theorem that composes them
  (`DoubleSigningIsSlashable`, and `SlashDoubleSigner` on the imperative code): two accepted
  signatures with one randomness and different challenges yield a witness that spends the
  staking output through its slashing path.
- **Transaction formats.** Builder and checker of slashing transactions agree exactly. What is
  written in the staking OP_RETURN format, the two-part checkpoint format, the BIP322 witness format
  and both adaptor signature formats is read back as it was. In the other direction, accepted
  checkpoint parts and adaptor signatures are the ones that would be written, staking data pushed
  directly prints to the same script, and accepted BIP322 bytes start with the serialisation of what
  they decode to.
- **Co-staking rewards.** Over every run of the module, resets included, the pool can pay what it owes,
  no coin is made or lost, and the lazy period accounting owes and pays exactly what a ledger does
  that keeps its own stakes and its own pot and credits everybody at the end of every period. The
  account holds, to the unit, the pot, the debts and the remainders of the divisions. A run starts from the empty store, from what the v4 upgrade
  leaves, or from any other solvent store with current scores.
- **State migrations.** Soft deletion of duplicated providers, initialisation and reset of co-staking
  trackers, and remediation of stake expansions: what each store entry becomes, which runs fail, and
  which runs change nothing.

## How the model is built

- `Prelude`, `Scalars`, `MapSum` and `StableSort` are the mathematics underneath: bytes and the
  integers they denote, arithmetic modulo a prime with inverses, sums over maps, and stable sorting
  (which is shown to have one result only, so it does not matter how the library sorts).
- Points are multiples of the generator (`Curve`). The code sees a point only through the bytes of
  its X coordinate and the parity of Y, so these are functions with the hypotheses collected in
  `Group.Valid`: X identifies a point up to sign, and exactly one of P and -P is even. `SlashingInstance`
  gives a group of order seven with which a whole double-signing run meets every hypothesis. Challenge
  hashes are an arbitrary function.
- Taproot trees are functions with the hypotheses in `Taproot.Valid`: leaf hashes do not collide, and an
  output is spent exactly by the leaves of its own tree with their control blocks (BIP341, "Script
  validation rules"). `SlashingInstance` shows that these hypotheses can be met.
- `Script` is a stack machine for the opcodes the compiler emits, with script numbers, the minimal
  encoding rule, the element and stack limits and the clean-stack rule, following BIP342 ("Rules for
  signature opcodes") and BIP112 ("Specification").
- Code that updates objects or loops over stores is a class or a method with loops; each is proved
  against a function or a predicate, and the results are lemmas about these. Where Go iterates over
  a map, the loop takes an arbitrary element, so the results hold for every iteration order.
- Block and transaction context, random bytes, query results and the order in which a store is walked
  are parameters.

## Facts worth knowing

- `OP_NUMEQUAL` demands exactly the threshold: a witness with one signature too many is refused.
- A multisig over one key is a plain signature check and ignores its threshold.
- A lock time of zero leaves a false value on the stack, so that path cannot be spent.
- `extractFromHashes` leaves the caller's second signature negated, and
  `NewDecryptionKeyFromModNScalar` may overwrite the caller's scalar; the witness built afterwards is
  still the one for the original key.
- The one-time signature code refuses challenges that are not below the group order, while BIP340 and
  the adaptor signature code reduce them.
- A zero nonce makes `signHash` return a signature that `verifyHash` refuses.
- `getAllBABYStakers` swallows query failures: what the first failing query and every later one would
  have delivered is missing from the trackers although the upgrade succeeds. The stored BABY of all
  stakers is complete exactly if nothing of value is missing (`RecordedBabyComplete`); if every page
  holds positive delegations, exactly if no query fails (`CompleteIffNoQueryFails`).
  `FailureIsSwallowed` is a run that succeeds and tracks nothing of any amount held.
- On a solvent pool the v4.2 reset succeeds exactly if no query fails. It rescores trackers whose
  satoshis do not change without settling them, so afterwards the pool is solvent exactly if the claims
  that rise are covered (`ResetSolventIff`). They are if no such tracker has a stored score below the
  one its amounts give now (`ResetStaysSolvent`); scores that are current or too high do no harm. With
  one tracker whose score should be ten, every stored score below ten leaves the pool insolvent
  (`LowScoreBreaksThePool`). No run reaches such a score (`StaleScoreUnreachable`): scores are current
  in every state of a run, so the reset can always be paid and keeps the pool solvent (`ResetInRuns`).
  A low score can only come from outside a run. A genesis import stores trackers as they are given
  (`x/costaking/keeper/genesis.go:12-46`) and its validation only refuses negative amounts
  (`x/costaking/types/rewards.go:89-100`); the v4 upgrade computes scores with the default ratio, so
  they are current if that is the ratio in force (`UpgradeStarts`).
- The fast filter `IsPossibleV0StakingTx` counts outputs without parsing their keys, so it drops a
  parseable transaction exactly if another output carries the tag and version with unparseable keys.
  `FilterDropsParseable` appends such an output to any parseable transaction.

## Model

| member | source | states |
|---|---|---|
| `Scalars.InverseLaw` | crypto/eots/eots.go:253-255 | modulo a prime, every nonzero difference of challenges has the inverse that extraction multiplies with |
| `Eots.ScalarBaseMultWithBlinding` | crypto/common/common.go:24-71 | for every blinding value the result is kG; without random bytes it fails |
| `Eots.SignHash` | crypto/eots/eots.go:64-140 | each error has its exact cause; in all four parity cases the signature verifies exactly if the nonce is not zero |
| `Eots.VerifyHash` | crypto/eots/eots.go:152-218 | accepts exactly if the challenge is below the group order and sG = R + eP for the even points with the given X coordinates |
| `Eots.ExtractFromHashes` | crypto/eots/eots.go:229-268 | result and error for every input, and the second signature of the caller is left negated exactly when both challenges were good |
| `Eots.SolveForKey` | crypto/eots/eots.go:247-260 | the quotient of the differences solves the two signature equations |
| `Eots.ExtractionSound` | crypto/eots/eots.go:152-268 | two accepted signatures, honest or not, under one key and randomness give the private key for either key parity exactly if their challenges differ |
| `Bip340.VerifiesEquation` | btcstaking/staking.go:833-881 | the verification steps of BIP340 are one equation between even points with the challenge hashed from nonce, key and message |
| `Bip340.SignVerifies` | x/btcstaking/types/btc_slashing_tx.go:97-118 | signing with nonzero key and nonce never fails and the signature verifies |
| `Bip340.SignIgnoresSign` | x/btcstaking/types/btc_slashing_tx.go:318-323 | a key and its negation make the same signatures, so overwriting the key before signing does no harm |
| `Bip340.SerializeLayout` | btcstaking/witness_utils.go:43 | a signature item is the X coordinate of the nonce and the scalar, 32 bytes each, big endian |
| `AdaptorSignature.EncVerify` | crypto/schnorr-adaptor-signature/sign_utils.go:81-160 | accepts exactly if sG is the nonce point R0 - T (negated for odd R0) plus eP and nothing involved is zero |
| `AdaptorSignature.EncSign` | crypto/schnorr-adaptor-signature/sign_utils.go:17-76 | everything returned passes the verifier; for the matching key the self-check can only fail on a zero s |
| `AdaptorSignature.EncSignWithAuxData` | crypto/schnorr-adaptor-signature/sig.go:87-162 | for any nonzero key, odd or even, the result verifies under the X-only key; the remaining failures are zero nonce, R0 at infinity and zero s |
| `AdaptorSignature.NonceFromKey` | crypto/schnorr-adaptor-signature/sign_utils.go:113-157 | recomputing the encryption key gives T exactly if R is the nonce point for T, for both parities of R0 |
| `AdaptorSignature.NegatePoint` | crypto/schnorr-adaptor-signature/sign_utils.go:250-254 | adds with its argument to infinity |
| `AdaptorSignature.Decrypt` | crypto/schnorr-adaptor-signature/sign_utils.go:164-200 | is the decryption function that `DecryptVerifies` is about |
| `AdaptorSignature.Extract` | crypto/schnorr-adaptor-signature/sign_utils.go:204-246 | is the extraction function that `ExtractFindsKey` is about |
| `AdaptorSignature.DecryptVerifies` | crypto/schnorr-adaptor-signature/sign_utils.go:81-200 | a pre-signature accepted under tG decrypts with t to a signature that BIP340 accepts for the same key and message |
| `AdaptorSignature.ExtractFindsKey` | crypto/schnorr-adaptor-signature/sign_utils.go:204-246 | from an accepted pre-signature and any valid signature with the same nonce coordinate, extraction returns the logarithm of T, and refuses exactly a zero s |
| `AdaptorSignature.ExtractUndoesDecrypt` | crypto/schnorr-adaptor-signature/sign_utils.go:164-246 | decrypting and then extracting returns the decryption key |
| `AdaptorSignature.NewDecryptionKeyFromModNScalar` | crypto/schnorr-adaptor-signature/keys.go:16-32 | fails exactly on zero or missing randomness, and overwrites the caller's scalar with the normalised key |
| `AdaptorSignature.KeyPairMatches` | crypto/schnorr-adaptor-signature/keys.go:16-96 | the encryption key made from kG belongs to the decryption key made from k, and is even |
| `AdaptorCodec.Marshal` | crypto/schnorr-adaptor-signature/types.go:124-152 | the 65 bytes that the two round trips are about: parity byte, X coordinate, big-endian scalar |
| `AdaptorCodec.ConvertOldFormatToNewFormat` | crypto/schnorr-adaptor-signature/types.go:41-60 | moves the trailing flag of 66 bytes into the parity byte of 65, refusing bad flags |
| `AdaptorCodec.ParseMarshal` | crypto/schnorr-adaptor-signature/types.go:71-152 | parsing undoes marshalling |
| `AdaptorCodec.MarshalParse` | crypto/schnorr-adaptor-signature/types.go:71-152 | every 65-byte string that parses is the encoding of what it parses to |
| `AdaptorCodec.OldFormatMeaning` | crypto/schnorr-adaptor-signature/types.go:41-107 | a 66-byte string parses to a signature exactly if it is that signature's old form |
| `Keys.SortBIP340PKsMirrorsSortKeys` | types/btc_schnorr_pk.go:135-144 | the descending sort of X-only keys is exactly the reverse of `SortKeys`, for all keys, repeated ones included |
| `Keys.SortKeysCanonical` | btcstaking/scripts_utils.go:45-54 | the sorted X-only keys depend neither on the order of the keys nor on any Y coordinate |
| `Keys.LexIsNumeric` | btcstaking/scripts_utils.go:45-54 | on strings of one length the byte order is the order of the integers they denote |
| `Keys.SortedByX` | btcstaking/scripts_utils.go:45-54 | scripts list keys by ascending X coordinate, witnesses by descending X coordinate |
| `StableSort.StableSortUnique` | app/upgrades/delete_dup_fp.go:87-118 | a stable sort has exactly one result, so any implementation of it gives the one used here |
| `StakingScripts.AssembleMultiSigScript` | btcstaking/scripts_utils.go:16-40 | one CHECKSIG, then CHECKSIGADD for every further key, then the threshold; refused beyond 10000 bytes |
| `StakingScripts.BuildMultiSigScript` | btcstaking/scripts_utils.go:76-101 | errors for no keys and too big a threshold, one key without threshold, otherwise the sorted multisig |
| `StakingScripts.BuildTimeLockScript` | btcstaking/scripts_utils.go:105-115 | never fails and is the script whose meaning `TimeLockPathMeaning` gives |
| `StakingScripts.BuildSingleKeySigScript` | btcstaking/scripts_utils.go:119-133 | never fails: the key and CHECKSIG or CHECKSIGVERIFY |
| `StakingScripts.AggregateScripts` | btcstaking/types.go:239-250 | the concatenation of any number of scripts |
| `StakingScripts.CheckForDuplicateKeys` | btcstaking/types.go:273-303 | refuses exactly if two of the staker, provider and covenant keys have one X coordinate |
| `StakingScripts.NewBabylonScriptPaths` | btcstaking/types.go:305-373 | the three paths, or the first error in the order of the checks |
| `StakingScripts.ScriptPathsDiffer` | btcstaking/types.go:305-373 | the three scripts of a stake always differ: each is longer than the one before |
| `StakingScripts.ScriptPathsCompile` | btcstaking/types.go:273-379 | the scripts compile exactly if no X coordinate repeats among staker, providers and covenant, there are one to 294 providers and covenant members, and the quorum is at most the committee |
| `StakingScripts.ScriptPathsCanonical` | btcstaking/types.go:305-373 | permuting provider or covenant keys or negating any key changes neither scripts nor errors |
| `Script.DecodeEncodeNum` | btcstaking/scripts_utils.go:30-33 | the numbers the compiler pushes are read back as the same numbers |
| `StakingScripts.ShortestPush` | btcstaking/scripts_utils.go:16-43 | thresholds and lock times are pushed in the shortest form, those up to sixteen by one opcode |
| `ScriptMeaning.UnbondingPathMeaning` | btcstaking/types.go:326-359 | for every witness stack, accepted exactly if it is a valid staker signature over one slot per covenant key, exactly the quorum filled, all filled slots valid |
| `ScriptMeaning.SlashingPathMeaning` | btcstaking/types.go:326-365 | for every witness stack, accepted exactly if the staker signature is valid, exactly one provider slot and exactly the quorum of covenant slots are filled, and all filled slots are valid for their own keys |
| `ScriptMeaning.TimeLockPathMeaning` | btcstaking/scripts_utils.go:105-115 | for every witness stack, accepted exactly if it is one valid staker signature, the lock time is not zero and the block-height lock has expired |
| `ScriptMeaning.TimeLockOfStake` | btcstaking/types.go:320-324 | the same for the timelock path of a stake with its own lock time |
| `Taproot.NewTaprootScriptHolder` | btcstaking/types.go:112-152 | succeeds exactly on non-empty scripts with different leaf hashes, and indexes every leaf |
| `Taproot.BuildStakingInfo` | btcstaking/types.go:381-449 | succeeds whenever the scripts compile; the output commits to the three scripts, each look-up gives its script with a control block that spends the output, and no other script spends it |
| `Taproot.BuildUnbondingInfo` | btcstaking/types.go:467-528 | the same for the two paths of an unbonding output |
| `Taproot.StakingPkScriptCanonical` | btcstaking/types.go:381-437 | the output script does not depend on key order or Y coordinates |
| `Taproot.LookupOpens` | btcstaking/types.go:154-190 | looking up the leaf hash of any script of a tree gives that script and a control block that spends the output of the tree |
| `Witness.CreateWitness` | btcstaking/witness_utils.go:113-136 | signatures, then script, then control block |
| `Witness.CreateTimeLockPathWitness` | btcstaking/witness_utils.go:10-18 | the one signature the timelock path needs, refused if missing |
| `Witness.CreateUnbondingPathWitness` | btcstaking/witness_utils.go:24-54 | covenant slots in the given order, empty items for missing ones, the staker signature on top; refused without covenant slots or staker signature |
| `Witness.CreateSlashingPathWitness` | btcstaking/witness_utils.go:61-105 | covenant slots, provider slots and the staker signature on top; refused without any of them |
| `Slashing.GetOrderedCovenantSignatures` | x/btcstaking/types/btcstaking.go:102-138 | one slot per covenant key in descending key order, filled exactly for those who signed for this provider; the first bad entry decides the error |
| `Slashing.DecryptCovenantSigs` | x/btcstaking/types/btc_slashing_tx.go:288-305 | decrypts from the front and stops at the quorum |
| `Slashing.DecryptQuorumExact` | x/btcstaking/types/btc_slashing_tx.go:288-309 | exactly the quorum is decrypted if enough signed, each in its own slot |
| `Slashing.FindFPIdxInWitness` | x/btcstaking/types/btc_slashing_tx.go:253-262 | the position of the provider in descending key order, or an error if it is not there |
| `Slashing.BuildSlashingTxWithWitness` | x/btcstaking/types/btc_slashing_tx.go:268-344 | the witness for the original key, although the key object is overwritten on the way; without random bytes a nonzero key gives the randomness error and stays as it is |
| `Slashing.SameIdentity` | x/btcstaking/types/btc_slashing_tx.go:284-323 | the normalised key has the same X-only identity and makes the same signatures |
| `SlashingEndToEnd.SlotsFit` | btcstaking/witness_utils.go:61-136 | slots in descending key order meet their own keys when the script consumes the stack |
| `SlashingEndToEnd.StoredMap` | x/btcstaking/types/btcstaking.go:102-123 | accepted entries of different committee members become one accepted pre-signature per member |
| `SlashingEndToEnd.KeyUnlocksSlashing` | x/btcstaking/types/btc_slashing_tx.go:268-344 | the secret key of any one provider turns the stored covenant signatures and the staker's signature into a witness the slashing path accepts |
| `SlashingEndToEnd.DoubleSigningIsSlashable` | crypto/eots/eots.go:229-268 | from two signatures accepted under one key and randomness with different challenges to a witness the slashing path accepts, for every quorum of at least one |
| `SlashingInstance.DoubleSignerIsSlashed` | crypto/eots/eots.go:229-268 | in a group of order seven, two signatures of one provider with one randomness meet all these hypotheses, give the provider's key, and the stake is slashed for every lock time |
| `SlashingEndToEnd.FindFPIdx` | x/btcstaking/types/btc_delegation.go:437-444 | the first position of the provider among those of the stake |
| `SlashingEndToEnd.SlashDoubleSigner` | x/btcstaking/types/btc_delegation.go:450-498 | the composed code builds the staking output and returns a witness that spends it: slashing script, control block, and a stack that satisfies the script |
| `SlashingEndToEnd.UnbondingWitnessAccepted` | btcstaking/witness_utils.go:20-54 | covenant signatures in witness order, exactly the quorum of them, and the staker's signature make a witness that the unbonding path accepts |
| `SlashingEndToEnd.TimeLockWitnessAccepted` | btcstaking/witness_utils.go:10-18 | the staker's signature makes a witness that the timelock path accepts exactly if the lock is not zero and has expired |
| `SlashingInstance.TreeValid` | btcstaking/types.go:112-190 | the hypotheses about Taproot trees can be met |
| `SlashingTx.SlashingRateMeaning` | btcstaking/types.go:531-545 | valid rates are exactly the multiples of one ten-thousandth strictly between zero and one |
| `SlashingTx.BuildSlashingTxFromOutpoint` | btcstaking/staking.go:44-107 | the transaction or the first error in the order of the checks, with int64 arithmetic |
| `SlashingTx.BuilderSucceeds` | btcstaking/staking.go:44-183 | for fees that are not negative, exactly when a transaction is built, and that it pays the share to the slashing script and the exact rest to the staker's timelock |
| `SlashingTx.CheckPreSignedTxSanity` | btcstaking/staking.go:234-287 | accepts exactly sane final transactions with the given shape and weight |
| `SlashingTx.ValidateSlashingTx` | btcstaking/staking.go:326-406 | accepts exactly transactions that pay the rounded share to the slashing script and the rest to the staker's lock, with at least the minimum fee |
| `SlashingTx.CheckSlashingTxMatchFundingTx` | btcstaking/staking.go:413-471 | accepts exactly good slashing transactions that spend the given output of a sane funding transaction |
| `SlashingTx.BuilderCheckerAgree` | btcstaking/staking.go:146-183 | a built transaction passes the checker under the same parameters exactly if the funding transaction is sane, the fee is at least the positive minimum, and the slashing script is within the weight limit |
| `SlashingTx.AcceptedConservesValue` | btcstaking/staking.go:326-471 | in every accepted transaction both outputs and the fee add up to the staked value, the fee is at least the minimum, the slashed part at least the rounded share, and nothing overflows; output 0 pays the slashing script, output 1 the staker's timelock, only data may be dust, and the transaction is final |
| `IdentifiableStaking.Marshall` | btcstaking/identifiable_staking.go:165-173 | the 71 bytes that the two round trips are about: tag, version, staker, provider, big-endian staking time |
| `IdentifiableStaking.ParseUndoesPrint` | btcstaking/identifiable_staking.go:118-181 | parsing a printed output gives the data back with both keys made even, whatever the amount |
| `IdentifiableStaking.PrintUndoesParse` | btcstaking/identifiable_staking.go:118-181 | printing what was parsed from a direct 71-byte push gives the script back |
| `IdentifiableStaking.TryToGetOpReturnData` | btcstaking/identifiable_staking.go:281-311 | finds the only output with staking data, says that there is none, or fails, exactly if two outputs hold staking data |
| `IdentifiableStaking.TryToGetStakingOutput` | btcstaking/identifiable_staking.go:313-340 | finds the only output with the script, says that there is none, or fails, exactly if two outputs hold it |
| `IdentifiableStaking.ParseV0StakingTxWithoutTag` | btcstaking/identifiable_staking.go:376-448 | succeeds exactly if one output carries staking data and one pays to the script the data describes |
| `IdentifiableStaking.ParseV0StakingTx` | btcstaking/identifiable_staking.go:345-371 | the same for an expected tag of four bytes |
| `IdentifiableStaking.ParseIsUnique` | btcstaking/identifiable_staking.go:376-448 | a transaction parses in at most one way |
| `IdentifiableStaking.StakingTxRoundTrip` | btcstaking/identifiable_staking.go:184-259 | built outputs, in any order among others that match neither, parse to the same tag, X-only keys, staking time and positions, and to nothing else |
| `IdentifiableStaking.IsPossibleV0StakingTx` | btcstaking/identifiable_staking.go:457-497 | true exactly if there are two outputs and exactly one carries the tag and version 0 |
| `IdentifiableStaking.CandidateMeans` | btcstaking/identifiable_staking.go:457-497 | an output carries the tag and version 0 exactly if its script is OP_RETURN and one push of 73 bytes in all, with the tag at the third and zero at the seventh byte |
| `IdentifiableStaking.DataBytesMeans` | btcstaking/identifiable_staking.go:136-153 | staking data are read exactly from 73-byte scripts that are OP_RETURN and one push in any of four forms, from the third byte on |
| `IdentifiableStaking.FilterAgreesWithParser` | btcstaking/identifiable_staking.go:345-497 | the filter passes a parseable transaction exactly if no output carries the tag and version 0 with unparseable keys |
| `IdentifiableStaking.FilterDropsParseable` | btcstaking/identifiable_staking.go:345-497 | every parseable transaction, with one more output of tag, version and unparseable keys, still parses to the same and has no single candidate for the filter |
| `Checkpoint.EncodeCheckpointData` | btctxformatter/formatter.go:145-191 | succeeds exactly on well-formed checkpoints; both parts byte by byte, the second ending in the first ten bytes of the hash of the first part's fields |
| `Checkpoint.GetCheckpointData` | btctxformatter/formatter.go:242-281 | succeeds exactly on a part with the right length, tag, version and index, and strips the header |
| `Checkpoint.IsBabylonCheckpointData` | btctxformatter/formatter.go:285-304 | recognises exactly the parts, with their own index |
| `Checkpoint.ConnectParts` | btctxformatter/formatter.go:338-367 | connects exactly payloads of the right lengths whose checksum matches |
| `Checkpoint.DecodeRawCheckpoint` | btctxformatter/formatter.go:308-334 | succeeds exactly on the right length, and the decoded checkpoint has those bytes as payload |
| `Checkpoint.EncodedPartsRecognised` | btctxformatter/formatter.go:74-304 | every encoded part is recognised as the part it is and as no other |
| `Checkpoint.PayloadInjective` | btctxformatter/formatter.go:98-143 | different checkpoints have different payloads |
| `Checkpoint.ConnectMeaning` | btctxformatter/formatter.go:308-367 | two payloads connect to the bytes of a checkpoint exactly if they are its payloads |
| `Checkpoint.RoundTrip` | btctxformatter/formatter.go:145-367 | encode, strip, connect and decode returns the checkpoint |
| `Checkpoint.ReEncode` | btctxformatter/formatter.go:145-367 | whatever connects decodes and re-encodes to the same two payloads |
| `Bip322.SerializeWitness` | crypto/bip322/witness.go:108-134 | writes the bytes that `WitnessCodec` is about |
| `Bip322.SimpleSigToWitness` | crypto/bip322/witness.go:73-105 | reads the stack that `WitnessCodec` is about, with every error of the reader |
| `Bip322.ReadScriptMeaning` | crypto/bip322/witness.go:39-59 | an item is read exactly if its canonical form within the size limit is in front |
| `Bip322.WitnessCodec` | crypto/bip322/witness.go:73-134 | for every byte string and stack, decoding returns the stack exactly if it is within the limits and the bytes start with its serialisation |
| `Bip322.AcceptedIsPrefix` | crypto/bip322/witness.go:73-105 | whatever the decoder accepts starts with the serialisation of a stack within the limits |
| `Bip322.DecodeUndoesSerialize` | crypto/bip322/witness.go:73-134 | decoding undoes serialising for every stack within the limits, whatever bytes follow |
| `SoftDelete.SurvivorIsFirstBest` | app/upgrades/delete_dup_fp.go:84-123 | the survivor is the first in store order among the highest voted height and then the most satoshis, and loading amounts only on a tie selects the same one as loading all |
| `SoftDelete.DeletedIsTheRest` | app/upgrades/delete_dup_fp.go:120-123 | what is deleted from a group is the group without the survivor |
| `SoftDelete.KeepsExactlyOne` | app/upgrades/delete_dup_fp.go:52-134 | at every address that has a provider exactly one is not deleted, and it is the first best one |
| `SoftDelete.KeptIffSurvives` | app/upgrades/delete_dup_fp.go:52-134 | a provider is kept exactly if every other one at its address has a lower voted height, or the same height and no more satoshis, and fewer if it is earlier in the store |
| `SoftDelete.NeedsMissingMeans` | app/upgrades/delete_dup_fp.go:91-107 | a needed amount is missing exactly if two providers share the greatest height of the group and the amount of one is not known |
| `SoftDelete.OrderDoesNotMatter` | app/upgrades/delete_dup_fp.go:68-81 | the list of duplicated addresses does not depend on the order in which the map is iterated |
| `SoftDelete.LoadAmounts` | app/upgrades/delete_dup_fp.go:95-107 | loads the amounts at the top height only, and fails exactly if one of those is missing |
| `SoftDelete.RankGroup` | app/upgrades/delete_dup_fp.go:84-118 | sorts, loads on a tie and sorts again into the order that `SurvivorIsFirstBest` is about |
| `SoftDelete.CollectGroups` | app/upgrades/delete_dup_fp.go:53-66 | groups providers by address in store order and records every address |
| `SoftDelete.CollectDupAddrs` | app/upgrades/delete_dup_fp.go:68-81 | the duplicated addresses in descending order, for every iteration order of the map |
| `SoftDelete.ChooseDeletions` | app/upgrades/delete_dup_fp.go:82-124 | the keys to delete group by group, or failure exactly if a needed amount is missing |
| `SoftDelete.FpSoftDeleteDupAddr` | app/upgrades/delete_dup_fp.go:52-134 | deletes exactly the providers that do not survive, in an order fixed by the store, and records every address; fails, deleting nothing, exactly on an unknown amount in a tie at the top |
| `Costaking.ScoreIsLargest` | x/costaking/types/score.go:20-23 | the score is the greatest number of satoshis that are staked and covered by BABY at the ratio |
| `Costaking.IncrementKeeps` | x/costaking/keeper/reward_tracker.go:133-166 | ending a period never fails in a recorded, backed pool and never promises more than it shares out |
| `Costaking.SettleKeeps` | x/costaking/keeper/reward_tracker.go:170-182 | a pay-out followed by a restart never lacks funds, moves coins to the right gauge only, and keeps all claims backed |
| `Costaking.AddedKeeps` | x/costaking/keeper/reward_tracker.go:17-28 | adding rewards keeps the pool solvent and adds exactly those coins; that they become rewards is part of `RunAgreesWithLedger` |
| `Costaking.RestartedKeeps` | x/costaking/keeper/reward_tracker.go:102-121 | ending the period, paying and storing a new tracker never fails and keeps the pool solvent with the total score in step |
| `Costaking.ModifiedKeeps` | x/costaking/keeper/reward_tracker.go:30-75 | a change is refused exactly if it leaves negative satoshis; otherwise amounts and score are stored, others stay, and the pool stays solvent |
| `Costaking.WithdrawnKeeps` | x/costaking/keeper/reward_tracker.go:89-93 | a withdrawal fails exactly without a tracker, and never for lack of funds |
| `Costaking.RescoredAllKeeps` | x/costaking/keeper/score.go:25-44 | rescoring in any order pays exactly those whose score changes what they earned and keeps all claims backed |
| `Costaking.WithRatioKeeps` | x/costaking/keeper/score.go:12-54 | a new ratio is always accepted, makes every score current, and restarts only trackers whose score changes |
| `CostakingKeeper.Keeper.GetCurrentRewardsInitialized` | x/costaking/keeper/reward_tracker.go:286-319 | creates period one with an empty record zero, once |
| `CostakingKeeper.Keeper.IncrementRewardsPeriod` | x/costaking/keeper/reward_tracker.go:133-166 | the whole new store, and failure exactly without a record of the previous period |
| `CostakingKeeper.Keeper.CalculateCostakerRewards` | x/costaking/keeper/reward_tracker.go:187-254 | what was earned since the start period, truncated, or failure on missing or falling records |
| `CostakingKeeper.Keeper.CalculateCostakerRewardsAndSendToGauge` | x/costaking/keeper/reward_tracker.go:170-182 | moves the reward from the account to the gauge, and fails exactly if it cannot be computed or paid |
| `CostakingKeeper.Keeper.AccumulateCostakingRewards` | x/costaking/keeper/intercept_fee_collector.go:118-130 | adds the coins to the account and, with decimals, to the current rewards |
| `CostakingKeeper.Keeper.CostakerModifiedScore` | x/costaking/keeper/reward_tracker.go:102-121 | period, pay-out, tracker and total in this order |
| `CostakingKeeper.Keeper.CostakerModified` | x/costaking/keeper/reward_tracker.go:30-75 | the step that `ModifiedKeeps` is about, for new and known costakers |
| `CostakingKeeper.Keeper.CostakerWithdrawRewards` | x/costaking/keeper/reward_tracker.go:89-93 | the step that `WithdrawnKeeps` is about |
| `CostakingKeeper.Keeper.UpdateCurrentRewardsTotalScore` | x/costaking/keeper/rewards_store.go:27-40 | ends the period before the new total counts |
| `CostakingKeeper.Keeper.UpdateAllCostakersScore` | x/costaking/keeper/score.go:12-54 | rescoring of every tracker in walk order, with the sum of the new scores as total |
| `CostakingKeeper.Keeper.UpdateParams` | x/costaking/keeper/msg_server.go:25-48 | rescoring exactly if the ratio changes |
| `CostakingRuns.StepKeeps` | x/costaking/keeper/reward_tracker.go:17-121 | every transaction and every reset keeps solvency and current scores, and changes the coins only by what it adds |
| `CostakingRuns.RunIsSolvent` | x/costaking/keeper/reward_tracker.go:17-319 | in every state of every run, from any solvent start with current scores, everything owed is backed, every score is current, and no coin was made or lost |
| `CostakingRuns.FreshStarts` | x/costaking/keeper/reward_tracker.go:285-319 | the empty store can start a run |
| `CostakingRuns.UpgradeStarts` | app/upgrades/v4/upgrades.go:104-131 | what the v4 upgrade makes of a new store can start a run under the default ratio |
| `CostakingRuns.ResetInRuns` | app/upgrades/v4_2/upgrade.go:72-122 | in every state of every run the reset is payable, keeps solvency, current scores and coins, and another run can go on from there |
| `CostakingRuns.StaleScoreUnreachable` | app/upgrades/v4_2/upgrade.go:226-243 | no run reaches a pool of the `LowScoreBreaksThePool` family with a score that is not current |
| `CostakingRuns.RefusalsInRuns` | x/costaking/keeper/reward_tracker.go:30-182 | in every run nobody is refused for lack of funds: exactly which changes and withdrawals are refused, and no new ratio or reset is |
| `CostakingLedger.RunAgreesWithLedger` | x/costaking/keeper/reward_tracker.go:17-254 | over every run the stakes, the undistributed rewards, the debts and the payments are exactly those of a ledger that knows only the first state and the operations |
| `CostakingLedger.RunBalances` | x/costaking/keeper/reward_tracker.go:17-254 | over every run the account holds exactly the undistributed rewards, all debts, what belonged to nobody at the start, and the remainders of sharing out and of paying whole coins |
| `CostakingLedger.AddAgrees` | x/costaking/types/rewards.go:45-58 | added coins become rewards of the current period |
| `CostakingLedger.RatioSettles` | x/costaking/keeper/score.go:12-55 | a new ratio pays off exactly those whose score it changes and leaves every other debt as it is after the period's shares |
| `CostakingLedger.ResetSettles` | app/upgrades/v4_2/upgrade.go:204-245 | a reset on current scores pays off exactly those whose satoshis it corrects and leaves every other debt as it is after the period's shares |
| `CostakingInit.DelegatingToActiveFP` | app/upgrades/v4/upgrades.go:325-336 | true exactly if one of the given providers is active |
| `CostakingInit.SatsSnoc` | app/upgrades/v4/upgrades.go:250-259 | one more delegation adds its satoshis to its own staker, and only if one of its providers is active |
| `CostakingInit.BabySnoc` | app/upgrades/v4/upgrades.go:195-204 | one more delegation adds its amount to its own delegator |
| `CostakingInit.UpsertCostakerRewardsTracker` | app/upgrades/v4/upgrades.go:271-323 | adds to the stored amounts, or starts in period one, and stores the score of the new amounts |
| `CostakingInit.SaveBTCStakersRwdTracker` | app/upgrades/v4/upgrades.go:216-268 | every staker's tracker grows by the sum of their active delegations over all pages; fails exactly if a query fails |
| `CostakingInit.GetValidatorDelegations` | app/upgrades/v4/upgrades.go:179-213 | tallies everything delivered before the first failing page |
| `CostakingInit.GetAllBABYStakers` | app/upgrades/v4/upgrades.go:157-176 | tallies everything before the first failing query and reports no failure |
| `CostakingInit.SaveBABYStakersRwdTracker` | app/upgrades/v4/upgrades.go:135-154 | adds every tallied amount once, for every iteration order, and sums those trackers' scores |
| `CostakingInit.InitializeCoStakerRwdsTracker` | app/upgrades/v4/upgrades.go:104-131 | the tracker of every address after the upgrade, the stored total, success exactly if the BTC queries succeed and the period can end, and complete BABY exactly if no failing query missed any |
| `CostakingInit.InitializedFromNew` | app/upgrades/v4/upgrades.go:104-131 | on a new store the total is the sum over all trackers, scores are current and the pool is solvent |
| `CostakingInit.RecordedBabyComplete` | app/upgrades/v4/upgrades.go:104-213 | the stored BABY of all stakers is complete exactly if the first failing query and everything after it hold no positive delegation |
| `CostakingInit.CompleteIffNoQueryFails` | app/upgrades/v4/upgrades.go:104-213 | the stored BABY of all stakers is complete if no query fails, and only then if every page holds positive delegations |
| `CostakingInit.FailureIsSwallowed` | app/upgrades/v4/upgrades.go:157-176 | an upgrade that succeeds while a failing query leaves a staker of any amount without tracker |
| `CostakingReset.ZeroOutCoStakerRwdsActiveSats` | app/upgrades/v4_2/upgrade.go:248-287 | zeroes all satoshis and remembers exactly those that were not zero |
| `CostakingReset.CountActiveSats` | app/upgrades/v4_2/upgrade.go:140-189 | the table of previous satoshis and current sums over all pages; fails exactly if a query fails |
| `CostakingReset.UpdateCostakerActiveSatsRewardsTracker` | app/upgrades/v4_2/upgrade.go:204-245 | skips unknown stakers, pays and restarts exactly on a correction, and stores the new amounts and score |
| `CostakingReset.UpdateTrackers` | app/upgrades/v4_2/upgrade.go:191-200 | updates every entry once, for every iteration order, and succeeds exactly if every correction can be computed and the balance covers their sum |
| `CostakingReset.GetTotalScore` | app/upgrades/v4_2/upgrade.go:289-310 | the sum of all stored scores |
| `CostakingReset.ResetCoStakerRwdsTracker` | app/upgrades/v4_2/upgrade.go:72-122 | succeeds exactly if no query fails and the corrections are payable, on a solvent pool exactly if no query fails; then the whole new store, no coin made or lost, and exactly when it is solvent |
| `CostakingReset.SolventPayable` | app/upgrades/v4_2/upgrade.go:191-245 | a solvent pool can pay every correction, whatever the delegations are |
| `CostakingReset.ResetSolventIff` | app/upgrades/v4_2/upgrade.go:72-310 | the reset of a solvent pool is solvent exactly if the balance covers the claims after rescoring |
| `CostakingReset.ResetStaysSolvent` | app/upgrades/v4_2/upgrade.go:72-310 | solvency is kept if no tracker that keeps its satoshis has a stored score below the current one |
| `CostakingReset.ResetKeeps` | app/upgrades/v4_2/upgrade.go:72-310 | on a solvent pool with current scores the reset is payable and leaves a solvent pool with current scores, the same ratio and the same coins |
| `CostakingReset.LowScoreBreaksThePool` | app/upgrades/v4_2/upgrade.go:226-243 | a family of solvent pools with payable resets that stay solvent exactly if the stored score is not below the current one |
| `CostakingReset.ResetKeepsCoins` | app/upgrades/v4_2/upgrade.go:72-245 | what the pool loses is what the reward gauges gain |
| `CostakingReset.ResetSets` | app/upgrades/v4_2/upgrade.go:72-310 | every tracker has the satoshis of its active delegations over all pages and the BABY it had, starts anew exactly if its satoshis changed, and the total is the sum of the scores |
| `CostakingReset.ResetUnchanged` | app/upgrades/v4_2/upgrade.go:204-287 | exactly which trackers the reset leaves alone |
| `CostakingReset.StaleScore` | app/upgrades/v4_2/upgrade.go:226-243 | a tracker that keeps its satoshis keeps its claim exactly if its score was current |
| `CostakingReset.ResetAfterInitialize` | app/upgrades/v4_2/upgrade.go:72-310 | after initialisation of a new store, with the same delegations and ratio, the reset changes no tracker and keeps the total |
| `Remediation.LookupMeans` | x/btcstaking/keeper/btc_delegations.go:432-461 | quorums resolve exactly if the chain of expanded delegations ends in a root, and the look-up brings the node down exactly if the chain meets a malformed hash or comes back to itself |
| `Remediation.ActiveMeans` | x/btcstaking/types/btc_delegation.go:119-162 | active exactly if the chain has a root, the delegation is not unbonded, its three signature counts reach the quorum of its params and an expansion's also that of the one it expands, it is included and started, and the tip plus the unbonding time is below its end |
| `Remediation.JudgeMeans` | app/upgrades/v4_3/upgrade.go:101-178 | exactly which children queue their parent and which bring the upgrade down, on the stored fields |
| `Remediation.QueuedOnce` | app/upgrades/v4_3/upgrade.go:101-209 | every qualifying parent is queued exactly once, as stored, with the first child that names it, in the order of those children |
| `Remediation.Keeper.BtcUndelegate` | x/btcstaking/keeper/btc_delegations.go:303-325 | writes the given copy back with the unbonding info and reports it exactly if it was included |
| `Remediation.Scan` | app/upgrades/v4_3/upgrade.go:101-209 | decides over every delegation without changing any; aborts exactly on a malformed child or chain |
| `Remediation.UnbondQueued` | app/upgrades/v4_3/upgrade.go:227-241 | writes all queued copies and reports each once |
| `Remediation.RemediatePoisonedStakeExpansions` | app/upgrades/v4_3/upgrade.go:71-246 | exactly the active parents of children unbonded before their inclusion are unbonded, each once and in the order of their first children; on an abort nothing changes |
| `Remediation.SameParams` | x/btcstaking/keeper/btc_delegations.go:432-461 | the remediation does not change the quorums that any delegation resolves to |
| `Remediation.NoActiveParentLeft` | app/upgrades/v4_3/upgrade.go:71-246 | afterwards no child that was unbonded before its inclusion has an active parent |
| `Remediation.SecondRunFindsNothing` | app/upgrades/v4_3/upgrade.go:67-70 | a second run neither aborts nor finds anything to do |

## Left out

- The arithmetic of secp256k1, SHA-256, tagged hashes and nonce derivation: points are multiples of the generator, hashes and nonces are parameters.
- Zeroising of secrets and timing behaviour: not functional properties.
- btcd's Taproot tree assembly, signature hashes and dust rule, and the rounding of `MulF64`: parameters, with leaf hashes that do not collide, outputs that are spent by the leaves of their own tree only, and a share that is at most the amount.
- The signature-operation budget of BIP342: every signature check is paid for by the bytes of its own signature, so it cannot bind on the scripts modelled here.
- Opcodes the compiler does not emit, among them those BIP342 lets succeed unconditionally: `Script.Decode` refuses them.
- `checkTxBeforeSigning` and the signing wrappers around it: single-branch checks in front of the modelled code.
- Nil pointers, malformed addresses that panic, and JSON, hex and protobuf wrappers.
- Failures of the key-value store itself while reading or writing: only query and bank failures that the code handles are modelled.
- Several denominations of rewards: each denomination is accounted for separately by the same arithmetic, and one is modelled.
- Overflow of 256-bit integers in reward arithmetic and the conversion of satoshi amounts to int64 in the staking hooks.
- The staking, epoching and finality hooks that compute the changes handed to `costakerModified`: a change is any replacement or shift of the two amounts.
- Going round in circles when a stake expansion names itself through others would exhaust the stack; the remediation model treats it as bringing the node down, like a malformed hash.
- Module wiring, upgrade handlers, genesis, events other than the unbonding event, logging and gRPC.
- BLS signatures, ERC-2335 key stores, ante handlers, wasm bindings, client and command-line code.
