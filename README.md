# Transaction-input signing, partial-signature bookkeeping and fee selection

This project models three parts of a Bitcoin-Cash-derived node (the Omni layer on top of it) and proves properties of the models in Dafny.

- **Producing a scriptSig for one input** (`src/script/sign.cpp`). It covers:
  - the signature cache kept in a `SignatureData` (`GetPubKey`, `CreateSig`);
  - the single-script step `SignStep`, with its pay-to-pubkey, pay-to-pubkey-hash, pay-to-script-hash and m-of-n multisig branches;
  - the minimal-push encoding `PushAll`;
  - the driver `ProduceSignature`, which unwraps one level of script-hash indirection;
  - the reverse direction `DataFromTransaction`, which recovers signatures from an existing scriptSig;
  - `MergeSignatureData`;
  - the dummy signature creator;
  - the partially signed transaction container of BIP 174: the per-input and per-output records with their `Merge`, `FillSignatureData`, `FromSignatureData`, `IsNull` and `IsSane`, the container's `Merge`, `IsNull` and `IsSane`, and `SignPSBTInput`.
- **The Omni script helpers** (`src/omnicore/script.cpp`): the classifier `SafeSolver` with its priority order and solution layout, `GetOutputType`, and `GetScriptPushes`.
- **Wallet fee selection** (`src/wallet/fees.cpp`): the required rate, the minimum rate with its override and fallback chain, and the fees for a transaction size capped by the maximum fee.

## How the model is organised

- `script.dfy` (module `Script`) holds the shared values.
  - Bytes, key and script ids, public keys and scripts are byte sequences.
  - An unlocking script is a sequence of operations: `OP_0`, `OP_1`..`OP_16`, a data push, or another opcode.
  - It also defines the output types, the classifier result `Solved`, and transactions.
- `externals.dfy` (module `Externals`) gathers what the code calls but does not implement. Each is a function-valued field of a datatype:
  - Hash160, the standard classifier, `VerifyScript`, the stack `EvalScript` leaves, and the `CheckSig` calls made while verifying (`Env`);
  - the key store (`Provider`);
  - the signature creator and its checker (`Creator`).

  `Env.Valid` states the one thing the signing code relies on about the classifier: its solution vectors have the shape its type promises.
- `signatures.dfy` (module `Signatures`) has the `SignatureData` class and its value snapshot, the `std::map` insertion rules, and the merge rule.
- `sign.dfy` (module `Sign`) has `GetCScript`, `GetPubKey`, `CreateSig`, `SignStep`, `PushAll` and `ProduceSignature`.
  - Each method that updates the `SignatureData` is proved against a specification function of the old state: `StepSpec` and `ProduceSpec`.
  - The multisig loop is specified by `Collect`, the signatures the loop gathers, and by `Scanned`, how far it looks.
- `extract.dfy` (module `Extract`) has `DataFromTransaction`, specified by `DataSpec`, the signature-extracting checker, and the forward-only multisig matching scan, specified by `FirstMatch`, `MatchItem` and `MatchScan`. A round-trip lemma reads back what the multisig signer wrote.
- `dummy.dfy` (module `Dummy`) has the dummy creator and a strict-DER check of its placeholder signature.
- `psbt.dfy` (module `Psbt`) has the BIP 174 records as classes with value snapshots, the container, and `SignPSBTInput`.
- `omni_script.dfy` (module `OmniScript`) has `SafeSolver`, `GetOutputType` and `GetScriptPushes`.
- `fees.dfy` (module `Fees`) has the fee functions.

## Where the model follows the code rather than the description

- In the pay-to-pubkey-hash branch of `SignStep`, the code does not check whether the key store knows the public key. When it does not, the default (empty) key is pushed and the step still succeeds (`src/script/sign.cpp:132-135`). The model does the same: `PubKeyBytes(None)` is empty.
- `PartiallySignedTransaction::Merge` merges inputs and outputs by position. It requires only that the other container has at least as many of each, since fewer would read past its end. It does not merge the container's own transaction or unknown fields.
- `PSBTInput::IsNull` does not look at the final scriptSig.

## Model

| member | source | states |
|---|---|---|
| Sign.GetCScript | src/script/sign.cpp:39-51 | The provider's script wins. Otherwise the held redeem script is returned exactly when its id is the requested one. There is no result exactly when neither source has the id. |
| Sign.GetPubKey | src/script/sign.cpp:53-72 | The lookup order is provider, then partial signatures, then known public keys. A key the provider returns is emplaced into misc_pubkeys under its own id. Nothing else changes. |
| Sign.CreateSig | src/script/sign.cpp:74-91 | A cached signature is returned and nothing changes. Otherwise, when the creator succeeds, exactly one fresh entry keyid ↦ (looked-up pubkey, sig) is added. When it fails, the signatures are unchanged. On success the signature is stored under keyid. Any new known key is the provider's key for keyid, lying under its own hash. |
| Sign.CachedSigForStable | src/script/sign.cpp:78-89 | Signatures the creator itself produced can be added to the cache without changing the signature any key id is given. |
| Sign.StepSpec | src/script/sign.cpp:100-166 | Classifier failure, non-standard and null-data give false with an empty stack. Pay-to-pubkey success gives [sig]. Pay-to-pubkey-hash success gives [sig, pubkey]. Script-hash success gives [subscript]. Multisig gives item 0 empty and the collected signatures next in key order, and is solved iff `required` signatures were collected. The multisig stack is padded with the corrected loop to required+1 items; the loop as written pads less (see Findings). |
| Sign.SignStep | src/script/sign.cpp:100-166 | The result equals StepSpec of the old cache and redeem script. New cache entries are the creator's own signatures, only for ids the step tried. Every tried id for which the creator (or the cache) has a signature ends up holding that signature. Known public keys only grow, and each new one is a key the provider gave for a tried id, stored under its own hash. Each new cache entry records the public key GetPubKey finds (the provider's, else the one known before, else none or one learnt in the same step), and every tried, uncached id's provider key ends up known under its own hash. Other fields are unchanged. |
| Sign.Collect | src/script/sign.cpp:149-156 | The multisig loop never collects more than `required` signatures. |
| Sign.CollectInKeyOrder | src/script/sign.cpp:149-156 | Each collected signature is the one its key yields, and the key indices strictly increase. |
| Sign.Scanned | src/script/sign.cpp:149-156 | The keys tried lie in range, and at least one key is tried while a signature is missing. |
| Sign.CollectShortMeansNoOtherSigner | src/script/sign.cpp:149-157 | When fewer than `required` signatures were collected, every key that could sign was used. |
| Sign.CollectAllSigners | src/script/sign.cpp:149-157 | When every key can sign, min(required, number of keys) signatures are collected. |
| Sign.CollectGaps | src/script/sign.cpp:149-156 | The loop skips only keys that cannot sign: none before the first collected key, and none between two consecutive collected keys. |
| Sign.MultisigStack | src/script/sign.cpp:147-160 | The stack is an empty item, then the picked signatures, then empty items, exactly required+1 in all. |
| Sign.ScanKey | src/script/sign.cpp:150-155 | One pass of the multisig loop keeps the loop invariant: the collected prefix, the stack, and a cache that grows only by the creator's signatures for keys already tried and holds every signature obtained for them. New known keys come from the provider for tried ids, the provider keys of tried ids are known, and each new entry carries the public key GetPubKey finds. No signature is attempted once `required` are held. |
| Sign.SignMultisig | src/script/sign.cpp:145-161 | The multisig branch returns MultisigStack of the collected signatures, padded by the corrected loop. ok holds iff exactly `required` were collected before padding, as in the source. Every key tried (those before the scan stops) that has a signature has it stored in the cache; new known keys come from the provider for those ids, and each such id's provider key becomes known. Each new entry records the public key GetPubKey finds for its id. |
| Sign.PadToRequired | src/script/sign.cpp:157-160 | Padding (corrected) fills the stack with empty items up to required+1. |
| Sign.PadAsWrittenLength | src/script/sign.cpp:158-160 | The padding loop as written adds only half (rounded up) of the missing items. |
| Sign.PadAsWrittenIsPrefix | src/script/sign.cpp:147-160 | The stack the loop as written builds is a prefix of the corrected one: the same dummy item and signatures, followed by only some of the padding. |
| Sign.MultisigPaddingFallsShort | src/script/sign.cpp:158-160 | For 2-of-n with no signature, the loop as written leaves 2 items where 3 are intended. |
| Sign.PushAll | src/script/sign.cpp:168-181 | There is one operation per item, in order: OP_0 exactly for an empty item, OP_N exactly for one byte in 1..16, otherwise a data push. |
| Sign.PushAllRoundTrip | src/script/sign.cpp:168-181 | Replaying the encoded script pushes back exactly the original items. |
| Sign.ProduceSpec | src/script/sign.cpp:190-211 | A script-hash step goes through the subscript, and the stack is the inner items followed by the subscript. A nested script-hash is not solved. Otherwise the result is the outer step's. |
| Sign.NestedScriptHashNeverSolved | src/script/sign.cpp:203-206 | A script-hash inside a script-hash is never reported solved. |
| Sign.ScriptHashOverPubKeyHash | src/script/sign.cpp:196-209 | Script-hash over a pay-to-pubkey-hash redeem script yields [sig, pubkey, subscript]. |
| Sign.ProduceSignature | src/script/sign.cpp:183-218 | Already complete: returns true and changes nothing. Otherwise scriptSig = PushAll(stack) of ProduceSpec, complete = solved && VerifyScript, and redeem_script becomes the subscript on the script-hash path. New signatures are the creator's own for the script code actually signed (the subscript on the script-hash path), only for key ids that step tried, and every tried id with a signature has it stored. New known keys are the provider's keys for tried ids under their own hash, and every tried uncached id's provider key becomes known. Each new entry records the public key GetPubKey finds (the provider's, else the known one, else none or one learnt during the step). Signatures and known keys only grow. |
| Signatures.MergeSpec | src/script/sign.cpp:355-368 | A complete receiver is unchanged. A complete argument replaces an incomplete receiver. Otherwise the signature maps are united with existing entries kept, and redeem_script is filled only if empty. |
| Signatures.SignatureData.MergeSignatureData | src/script/sign.cpp:355-368 | The new state is MergeSpec of the old state and the argument. |
| Signatures.MergeIdempotent | src/script/sign.cpp:355-368 | Merging the same data twice equals merging it once. |
| Signatures.MergeWithSelf | src/script/sign.cpp:355-368 | Merging data with itself is the identity. |
| Signatures.MergeOrderKeys | src/script/sign.cpp:363-367 | For incomplete data, merge order does not change the set of signing key ids. The receiver's entries survive. The redeem script agrees unless both arguments carry one. |
| Signatures.CompleteDominates | src/script/sign.cpp:356-361 | Complete data wins against incomplete data in either merge order. |
| Signatures.InsertAll | src/script/sign.cpp:366-367 | std::map::insert of a range unites the keys, and existing entries keep their values. |
| Extract.RecordChecks | src/script/sign.cpp:260-270 | Each accepted CheckSig is recorded under its public key's id. Existing entries are never overwritten, every new entry comes from an accepted check, and every accepted check's id is present. |
| Extract.FirstMatch | src/script/sign.cpp:334-343 | For one stack item, the inner loop stops at the first key from last_success_key on that already has a signature or accepts the item. When it stops nowhere, no such key has an entry or accepts the item. |
| Extract.MatchScan | src/script/sign.cpp:331-345 | The whole scan keeps last_success_key within the keys, only adds entries, and each added entry is a stack item the checker accepts for a multisig key, under that key's id. |
| Extract.MatchOne | src/script/sign.cpp:334-343 | The inner loop's signatures and new last_success_key are exactly MatchItem's, which consults FirstMatch. |
| Extract.MatchMultisig | src/script/sign.cpp:328-346 | The nested loops compute exactly MatchScan over the stack items, bottom first, starting at key 0. |
| Extract.PadsKeepSigs | src/script/sign.cpp:331-345 | Empty stack items never add a signature when no key's signature is empty. |
| Extract.PickedItemMatches | src/script/sign.cpp:331-345 | The next signature the multisig signer collected is matched to its own key, because the keys skipped before it cannot sign. |
| Extract.ScanRecovers | src/script/sign.cpp:331-345 | From a state holding the first t collected signatures, the rest of the stack recovers all of them and adds only genuine ones. |
| Extract.ExtractRecoversSigned | src/script/sign.cpp:145-161 | Round trip with the multisig signer: with a checker that accepts exactly the creator's signatures, scanning the signed stack from no signatures gives every collected signature under its own key's id, and nothing the creator would not produce. |
| Extract.StackRedeemScript | src/script/sign.cpp:316-327 | For a script-hash output, the redeem script taken is exactly the last stack item, when that item is non-empty. |
| Extract.DataSpec | src/script/sign.cpp:294-349 | scriptSig is copied and complete = VerifyScript. When complete, the data holds only the recorded signatures. Otherwise the redeem script follows StackRedeemScript, the recorded signatures are kept, and every extra one is a stack item the checker accepts for its key under the next script. |
| Extract.DataFromTransaction | src/script/sign.cpp:294-349 | The data recovered is exactly DataSpec of the input's scriptSig and the spent output. |
| Dummy.DummySignature | src/script/sign.cpp:417-427 | The placeholder has 72 bytes: 0x30, 69, 0x02, 33, 0x01 at 0-4; 0x02, 32, 0x01 at 37-39; 0x41 at 71; zero elsewhere. |
| Dummy.DummyCreator | src/script/sign.cpp:396-429 | CreateSig always succeeds with the placeholder, and the checker accepts every signature. |
| Dummy.DummySignatureIsStrictDer | src/script/sign.cpp:417-427 | The placeholder passes the strict DER signature encoding rules of BIP 66. |
| Dummy.DummyMultisigSolved | src/script/sign.cpp:145-161 | With the dummy creator, an m-of-n multisig step is solved iff m <= n. |
| Psbt.MergeInput | src/script/sign.cpp:499-514 | The three maps are united with existing entries kept. utxo, redeem script and final scriptSig are filled only if absent. |
| Psbt.PSBTInput.Merge | src/script/sign.cpp:499-514 | The new state is MergeInput of the old state and the other input. |
| Psbt.MergeInputIdempotent | src/script/sign.cpp:499-514 | Merging the same input twice equals merging it once. |
| Psbt.MergeInputWithSelf | src/script/sign.cpp:499-514 | Merging an input with a copy of itself changes nothing. |
| Psbt.MergeNullInput | src/script/sign.cpp:499-514 | A null input is neutral on both sides of a merge. |
| Psbt.MergeInputOrder | src/script/sign.cpp:504-513 | Merge order does not change the signature or unknown key sets. A finalized input keeps its final scriptSig whatever the order. |
| Psbt.InputValue.IsNull | src/script/sign.cpp:458-461 | An input is null iff it is the empty input apart from its final scriptSig. |
| Psbt.InputValue.IsSane | src/script/sign.cpp:516-518 | Every input is sane. |
| Psbt.MergeInputIsNull | src/script/sign.cpp:458-461 | A merged input is null iff both inputs are. |
| Psbt.FillFromInput | src/script/sign.cpp:463-475 | A final scriptSig completes the data. Complete data is left alone. Otherwise partial signatures are inserted without overwriting, and a non-empty redeem script overwrites. |
| Psbt.AddKeyPathPubKeys | src/script/sign.cpp:476-478 | Every key-path public key's id is present afterwards. Old entries are kept, and each new entry is one of those keys under its own id. |
| Psbt.PSBTInput.FillSignatureData | src/script/sign.cpp:463-479 | The data becomes FillFromInput of the old data. Its known keys grow by the key-path public keys only when not complete. |
| Psbt.FromSigDataInput | src/script/sign.cpp:481-497 | Complete data clears the partial signatures, key paths and redeem script, and sets a non-empty scriptSig as final. Otherwise signatures are added and the redeem script is filled only if absent. |
| Psbt.PSBTInput.FromSignatureData | src/script/sign.cpp:481-497 | The new state is FromSigDataInput of the old state and the data. |
| Psbt.FillThenFromInput | src/script/sign.cpp:463-497 | Filling fresh data from a non-finalized input and storing it back returns the same input. |
| Psbt.FillThenFromFinalized | src/script/sign.cpp:463-497 | A finalized input keeps only its utxo, unknown fields and final scriptSig. |
| Psbt.MergeOutput | src/script/sign.cpp:539-546 | Key paths and unknown fields are united with existing entries kept, and the redeem script is filled only if absent. |
| Psbt.PSBTOutput.Merge | src/script/sign.cpp:539-546 | The new state is MergeOutput of the old state and the other output. |
| Psbt.MergeOutputIdempotent | src/script/sign.cpp:539-546 | Merging the same output twice equals merging it once. |
| Psbt.OutputValue.IsNull | src/script/sign.cpp:535-537 | An output is null iff it is the empty output. |
| Psbt.MergeOutputIsNull | src/script/sign.cpp:535-537 | A merged output is null iff both outputs are. |
| Psbt.FillFromOutput | src/script/sign.cpp:520-523 | A non-empty redeem script overwrites the data's, with no short-circuit on completeness. Nothing else changes. |
| Psbt.PSBTOutput.FillSignatureData | src/script/sign.cpp:520-527 | The data becomes FillFromOutput of the old data, and the known keys grow by the key-path public keys. |
| Psbt.FromSigDataOutput | src/script/sign.cpp:529-533 | The redeem script is filled only if absent, and the other fields are kept. |
| Psbt.PSBTOutput.FromSignatureData | src/script/sign.cpp:529-533 | The new state is FromSigDataOutput of the old state and the data. |
| Psbt.FillThenFromOutput | src/script/sign.cpp:520-533 | An output's own redeem script survives a fill and store-back. |
| Psbt.PartiallySignedTransaction.IsNull | src/script/sign.cpp:436-438 | A null container has no input or output records; Merge keeps a container null or not null. |
| Psbt.PartiallySignedTransaction.IsSane | src/script/sign.cpp:449-456 | The result is true iff every input is sane, which is always. |
| Psbt.PartiallySignedTransaction.Merge | src/script/sign.cpp:440-447 | Each input and output i becomes the merge of itself with the other container's input or output i. Whether the container is null does not change. |
| Psbt.MergeInputs | src/script/sign.cpp:441-443 | The input loop merges position by position. |
| Psbt.MergeOutputs | src/script/sign.cpp:444-446 | The output loop merges position by position and leaves the input records as they are. |
| Psbt.EmplacedThenSigned | src/script/sign.cpp:228-241 | Emplacing the key-path keys and then signing leaves the known keys as MiscAfterSigning describes: old entries kept, every key-path key present, every new entry under its own hash and either a key-path key or the provider's key for a tried id. |
| Psbt.SignPSBTInput | src/script/sign.cpp:220-244 | A finalized input returns true with nothing changed. Without a utxo, the data is filled and false is returned. Otherwise the input stores back what ProduceSignature left, and the result is the data's completeness. With a utxo, already complete filled data is reported complete; otherwise the scriptSig is PushAll of ProduceSpec over the filled signatures and redeem script, complete = solved && VerifyScript, and new signatures are the creator's own, for the amount's creator and the script code signed, only for key ids tried; every tried id with a signature has it stored, and when not complete every stored signature's id is among the input's partial signatures. Known keys gain the key-path keys and the provider's keys for tried ids, each under its own hash; without a utxo they gain exactly the emplaced key-path keys. With `filled` the known keys after the key-path keys are emplaced, each new signature records the public key GetPubKey finds against `filled`, and when not complete it is copied with that key into the input's partial signatures. Data already complete before filling is left exactly as it was, and the result is whether there is a utxo. |
| OmniScript.SafeSolver | src/omnicore/script.cpp:89-145 | Pay-to-script-hash comes first with one 20-byte solution (script bytes 2..21). OP_RETURN with at least 2 bytes and a push-only rest is null data with no solutions. Then pubkey, pubkey-hash and multisig are tried in order; multisig solutions are [required] ++ keys ++ [number of keys]. Otherwise the result is not standard with no solutions. Each type is returned iff its test holds and no earlier test does. Every result is well shaped. |
| OmniScript.PayToScriptHashRoundTrip | src/omnicore/script.cpp:95-101 | Classifying the script-hash script built for a hash gives back that hash. |
| OmniScript.MultisigLayout | src/omnicore/script.cpp:132-139 | For 1..16 signatures and keys, item 0 is `required`, the last item is the number of keys, and the keys sit between them, where the signing code reads them. |
| OmniScript.GetOutputType | src/omnicore/script.cpp:41-51 | The result is false exactly when SafeSolver fails, and the type is then non-standard. The type always equals SafeSolver's. |
| OmniScript.GetScriptPushes | src/omnicore/script.cpp:61-76 | The output is the input list followed by the hex of every pushed data item in order, less the first when skipping. The result is false iff an operation cannot be decoded, and items appended before that are kept. |
| OmniScript.ScriptPushesCount | src/omnicore/script.cpp:71-72 | Exactly one entry is added per push, less the skipped first one. |
| Fees.GetRequiredFee | src/wallet/fees.cpp:19-21 | The required fee is the ceiling fee at the wallet minimum or at the relay minimum; when the fee grows with the rate it is at least both. |
| Fees.GetRequiredFeeRate | src/wallet/fees.cpp:36-38 | The required rate is at least both the wallet minimum and the relay minimum, and equals one of them. |
| Fees.ChosenFeeRate | src/wallet/fees.cpp:43-46 | The coin-control rate is used iff override is set and a rate is present; otherwise the wallet's pay-tx-fee rate is used. |
| Fees.WithFallback | src/wallet/fees.cpp:48-55 | A zero rate falls back to the mempool estimate, and a zero estimate falls back to the fallback rate. |
| Fees.GetMinimumFeeRate | src/wallet/fees.cpp:40-59 | The result is never below the required rate or the chosen rate after fallback, and equals one of the two. |
| Fees.GetMinimumFee | src/wallet/fees.cpp:23-34 | The fee never exceeds maxTxFee. Below the cap it equals the minimum rate's ceiling fee for the size. |
| Fees.MinimumFeeCoversRequired | src/wallet/fees.cpp:19-34 | If the ceiling fee grows with the rate, the minimum fee is at least the required fee unless the cap cuts it. |
| Fees.OverrideHonoured | src/wallet/fees.cpp:40-59 | A non-zero override at or above the required rate is used unchanged. |
| Fees.ZeroRatesUseFallback | src/wallet/fees.cpp:48-58 | With no override, no wallet rate and no estimate, the result is the fallback rate floored by the required rate. |

## Left out

- Cryptography is left out: ECDSA signing, `SignatureHash`, private-key lookup (`MutableTransactionSignatureCreator::CreateSig`) and Hash160 (`CKeyID`, `CScriptID`, `CPubKey::GetID`).
  - The creator is a partial function from (key id, script code) to bytes.
  - Hash160 is an uninterpreted function; no injectivity is assumed.
  - The creator built from the transaction, input index, amount and sighash type is a parameter (`creatorFor` in `SignPSBTInput`).
- The script interpreter and the standard classifier are not part of this model; they are functions of `Env`. This covers `VerifyScript`, `EvalScript` (the `Stacks` helper) and `Solver`.
  - For `DataFromTransaction`, the `CheckSig` calls made while verifying are given as a sequence. The signature-extracting checker answers exactly as the checker it wraps, so that sequence does not depend on the wrapper.
  - Because the interpreter is abstract, "the produced scriptSig verifies exactly when the step solved" cannot be stated. `complete` is tied to the abstract verifier instead.
- `CPubKey` is not parsed. An id is the hash of the key's bytes; an invalid key's bytes are not replaced as `CPubKey` would replace them.
- The byte-level matchers are parameters of `SafeSolver`: `IsPushOnly`, `MatchPayToPubkey`, `MatchPayToPubkeyHash` and `MatchMultisig`.
  - `CScript::GetOp` is a parameter of `GetScriptPushes` that reports each operation's width.
  - `HexStr` is a parameter too.
  - Push-size selection in `CScript::operator<<` is not modelled; `PushAll` works at the level of operations.
- `SignSignature` and `UpdateInput` are thin wrappers that write one transaction input. They are not modelled.
- `GetDustThreshold` is left out; it wraps policy code and a global relay fee that are not part of this model.
- `CFeeRate::GetFeeCeiling` and `CTxMemPool::estimateFee` are parameters. The globals `minRelayTxFee` and `maxTxFee` are fields of `Fees.Node`.
  - Amounts are unbounded integers; 64-bit overflow is not modelled.
- Psbt.AddKeyPathPubKeys: the source visits key-path public keys in `std::map` order. The model visits them in an unspecified order. Its contract is stated for every order, and is therefore weaker when two keys share an id.
- `CTxOut::IsNull` is modelled as an absent utxo (`None`). A present output with value -1 would count as null in the source.
- Psbt.PartiallySignedTransaction.Merge requires its record objects to be distinct and not shared with the other container. C++ records are values, so the source never shares them. Merging a container into itself is therefore not covered.
- The key origins in key paths are opaque sequences of numbers.
- Sign.SignMultisig: the model pads the multisig stack with the corrected loop, so it does not reproduce the short stack the loop as written builds. `Sign.PadAsWritten` models that loop, and `Sign.PadAsWrittenIsPrefix` shows its stack is a prefix of the corrected one.
- Extract.ExtractRecoversSigned is stated for a scan that starts from no signatures. In `DataFromTransaction` the scan starts from the signatures recorded while verifying; an already recorded key matches any stack item, even the empty dummy item, so the scan can move past a key whose signature comes later on the stack, and that signature is then not recovered.

## Findings

| source | as written | input that shows it | evidently intended | confidence | as-written member | corrected member |
|---|---|---|---|---|---|---|
| src/script/sign.cpp:158-160 | The multisig padding loop `for (i = 0; i + ret.size() < required + 1; ++i) push_back({})` grows both `i` and `ret.size()`. It adds only half (rounded up) of the missing empty items. | 2-of-n multisig where no key can sign: `ret` = [empty]; the loop adds one item and stops, leaving 2 items instead of 3 | The stack is padded to exactly required+1 items: one empty item for the CHECKMULTISIG extra pop, then one slot per required signature | not executed; medium | Sign.PadAsWrittenLength | Sign.PadToRequired |
