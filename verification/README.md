# Vericonomy light wallet: a verified model

The Vericonomy SDK is a light wallet for the Verium and Vericoin chains. This project models its
send-and-sync engine in Dafny and proves what it promises:

- **Sending.** Coins are selected and a fee planned, each coin is refreshed from its parent
  transaction, the fee is planned again, the transaction is assembled, signed input by input,
  decoded again and verified, and broadcast.
- **Syncing.** Two address chains are scanned for used scripts in batches, under a request budget,
  with progress saved after every slice so that an interrupted scan can go on later.
- **Remembering.** Unspent outputs are kept in a table that is updated by difference, changed
  optimistically after a payment, and cleaned while a balance is computed. History rows are merged.

Bytes are modelled concretely. Hashing, signing, public keys and Base58Check addresses are function
values about which only three laws are assumed (`Wallet.Lawful`): verification accepts a signature
made with a valid secret, whose DER form has at most 71 bytes; a valid secret has a valid public key;
decoding an address undoes encoding it. The chain, the servers, storage failures and the clock are
parameters: functions from a request to its answer, or booleans for "this write succeeds".

`dafny verify dfyconfig.toml` checks everything.

## Layout

| module | models |
|---|---|
| `Outcome`, `Bytes`, `Hex` | results and errors, little-endian numbers, hex text and transaction ids |
| `Wire`, `WireLayout`, `ScriptCode`, `Sighash` | `vericonomy-tx`: wire format, where its fields stand, script instructions, signature hash |
| `Wallet`, `Signer` | coins, keys, key search, assembly and signing |
| `Verify`, `SignVerify` | the two local verifications, and their agreement with the signer |
| `CoinSelection`, `FeePlan`, `PlannerLimits`, `PlannerRounds`, `PlannerBound`, `Replan`, `TxSize` | selection, fee planning and what the fee pays for |
| `WindowLimits` | how many coins and outputs the wallet can spend and still accept what it signed |
| `UtxoPrep`, `Send` | coin refresh in place, and the whole send pipeline |
| `GapScan`, `Keystore`, `SyncEngine`, `Rescan` | discovery rule, batched scan, saved record, indexing run, manual rescans |
| `ScanSafety`, `ScanProgress`, `Indexing` | safety over all runs, termination, the request budget |
| `KeySet`, `UtxoTable`, `WalletCache`, `Ledger` | printed key sets, output table, balance and eviction, agreement with the transaction sent |
| `History` | merging history rows |

Loops and objects of the source are methods and classes here, each proved equal to a specification
function; the properties are lemmas about those functions. What such a function means is told again in
other terms (the lemmas whose names end in `Iff` or `Means`): bytes by position, verdicts by the fields of
the decoded transaction, history rows by id, category and address.

## Results about the code that its readers may not expect

- The planner can report missing funds although a plan exists. For one recipient this first happens, at
  every rate, with thirteen coins: `PlannerLimits.PlannerMissesAtThirteen` gives them, and
  `PlannerLimits.NeverTurnsAwayIff` says that twelve is the exact bound. From the same number of coins on it
  can also alternate between two fees for ever (`PlannerRounds.AlwaysSettlesIff`).
- The planner's limit of eight rounds changes no outcome for wallets of up to 53 coins, and at every rate
  there are 54 coins for which a ninth round would settle on a fee (`PlannerBound.EightRoundsSufficeIff`,
  `PlannerBound.LadderCoins`).
- The size estimate behind every fee is enough for a spend exactly when its scriptSigs are shorter than the
  longest ones by at least as many bytes as the counts of inputs and outputs are longer than one byte each
  (`TxSize.EstimateEnoughIff`). Before the signatures are known, only fewer than 253 inputs and fewer than
  253 outputs guarantee it (`TxSize.AlwaysEnoughIff`). Whether the fee still reaches the network minimum for
  the bytes broadcast depends on the levels at the two sizes (`TxSize.FeeCoversIff`, `TxSize.AlwaysCoversIff`).
- A signed transaction whose inputs or outputs take more than 4,000,000 bytes cannot be decoded again
  and is rejected by the wallet's own verification (`SignVerify.SignedInputsAccepted`). Up to 27,027 inputs and
  117,646 outputs that cannot happen, and beyond either there are signings to which it does
  (`WindowLimits.AlwaysAcceptedIff`); a payment that spends at most 27,027 coins is never refused for its size
  (`Send.SendPayment`).
- The Electrum client reports an exhausted budget with words that the scan does not recognise
  (vericonomy-chain/src/electrum/manager.rs:91, vericonomy-errors/src/lib.rs:107), so the scan fails
  instead of pausing. A wallet that needs more than one budget of 200 requests is then never indexed,
  however often it is synchronised (`ScanProgress.TooLargeIsNeverIndexed`). With one address chain and
  its first n addresses used this is the case exactly from n = 173 on (`ScanProgress.TooLargeIff`,
  `ScanProgress.LargeWalletNeverIndexed`). With a backend that does pause, one run always finishes
  (`ScanProgress.PausingBackendFinishes`), and recognised words in the client's refusals would be enough for
  that (`ScanProgress.KnownWordsFinish`).
- The listing of outputs that ends a scan is made before the scan's budget is lifted. For such a wallet the first
  synchronisation ends without an error exactly up to n = 76; from n = 77 to n = 172 it reports an error although
  it has marked the scan complete (`ScanProgress.FirstSyncIff`).
- The time of a manual rescan is stored before the positions are reset. If the reset cannot be written, nothing
  is rescanned, and the next attempt has to wait an hour all the same (`Rescan.NextAdmittedIff`).
- docs/hd-path-policy.md:28 says that scan and signing both go up to index 501. The scan examines 501,
  the key search stops before it; `Signer.PositionSignsIff` is exact.
- An id with white space around it is turned round, byte by byte, when a coin is taken from the wallet's own
  record (`UtxoPrep.NormalizedMeans`).
- Merging history loses nothing as long as no key is repeated in the base
  (`History.DistinctBaseLosesNothing`). Stored histories never repeat one, because their table is keyed by
  it, and neither does the result of a merge (`History.MergeTxHistory`); only another caller of the public
  function, or another source of history rows, could pass a base in which a confirmed row is followed by a
  pending one with its key, and that confirmed row is dropped (`History.ConfirmedRowLost`).
- Under SIGHASH_NONE the outputs stay in the hashed copy (vericonomy-tx/src/lib.rs:191-197), so NONE
  commits to them; `Sighash.PreimageCommitsExactly` says so.

## Model

| member | source | states |
|---|---|---|
| Wire.SerializeVeriumTx | vericonomy-tx/src/lib.rs:68-86 | The buffer built by five appends is the encoding that the codec laws are about |
| Wire.TxRoundTrip | vericonomy-tx/src/lib.rs:68-102 | Decoding an encoded transaction followed by any bytes gives the transaction and those bytes, if both vectors fit the 4,000,000-byte window, and fails otherwise |
| Wire.TxCanonical | vericonomy-tx/src/lib.rs:88-102 | Whatever decodes is the encoding of the result followed by the unread rest |
| Wire.EncodingPrefixFree | vericonomy-tx/src/lib.rs:68-86 | No encoding is a prefix of another one's continuation: equal bytes mean equal transactions and equal rests, at any size |
| WireLayout.LayoutIff | vericonomy-tx/src/lib.rs:68-86 | The bytes are exactly those in which version, time, counts, outpoints, scripts, sequences, amounts and lock time stand one behind the other, each number with its least significant byte first |
| Wire.VecRoundTrip | vericonomy-tx/src/lib.rs:72-82 | A vector with any item codec decodes on any continuation exactly when it fits the window |
| Wire.CompactSizeRoundTrip | vericonomy-tx/src/lib.rs:72-82 | A count is read back in each of its four widths |
| Wire.CompactSizeCanonical | vericonomy-tx/src/lib.rs:88-102 | Only the shortest form of a count is accepted |
| ScriptCode.StepMatches | vericonomy-tx/src/lib.rs:129-168 | The offset scanner and the instruction parser agree on where each instruction ends, which it is, and when it is cut short |
| ScriptCode.FindAndDeleteCodeSeparators | vericonomy-tx/src/lib.rs:111-127 | The byte loop returns the script assembled from the kept instructions |
| ScriptCode.StrippingFiltersInstructions | vericonomy-tx/src/lib.rs:111-127 | Parsing the result gives the parsed instructions without OP_CODESEPARATOR, so pushed data is untouched in all four push forms; removal is idempotent |
| ScriptCode.StrippedIsIdentityIff | vericonomy-tx/src/lib.rs:111-127 | The script is unchanged exactly when it is complete and holds no separator instruction |
| ScriptCode.StrippedP2pkh | vericonomy-tx/src/lib.rs:111-127 | A 25-byte P2PKH script is never changed, whatever its hash |
| ScriptCode.SeparatorGoes | vericonomy-tx/src/lib.rs:137 | The separator is the byte 0xab |
| ScriptCode.AssembleRoundTrip | vericonomy-tx/src/lib.rs:129-168 | Instructions survive being written and parsed |
| ScriptCode.P2pkhPubkeyHash | vericonomy-wallet-facade/src/verify.rs:55-66 | A hash is returned exactly for the P2PKH script of that hash |
| ScriptCode.P2pkhInstructions | vericonomy-wallet-facade/src/verify.rs:55-66 | That script is OP_DUP, OP_HASH160, a push of the hash, OP_EQUALVERIFY, OP_CHECKSIG |
| ScriptCode.ParseP2pkhScriptSig | vericonomy-wallet-facade/src/verify.rs:68-83 | The loop accepts exactly two minimal pushes in an unbroken script, and returns them in order |
| ScriptCode.MinimalMeansShortest | vericonomy-wallet-facade/src/verify.rs:68-83 | A push counts as minimal exactly if no shorter instruction pushes the same data |
| ScriptCode.SigAndKeyIff | vericonomy-wallet-facade/src/verify.rs:68-83 | Signature and key are returned exactly for a complete script of minimal pushes whose pushes are these two, in this order |
| ScriptCode.ScriptSigRoundTrip | vericonomy-wallet-facade/src/verify.rs:68-83 | Signature and key, pushed by the signer, are read back by the verifier's parser |
| Sighash.VeriumSignatureHash | vericonomy-tx/src/lib.rs:171-223 | Editing a copy in place hashes the masked transaction, with the out-of-range result of SINGLE |
| Sighash.PreimageMeans | vericonomy-tx/src/lib.rs:171-223 | What is hashed are the bytes, field by field, of a copy with the script code in the signed input alone, sequences and outputs as the type demands, and then the type in four bytes; they decode to that copy |
| Sighash.DigestMeans | vericonomy-tx/src/lib.rs:176-223 | Every outcome: an index that is not there, 32 ones for SINGLE without its output, or the hash of those bytes |
| Sighash.TypeAllEndsIn | vericonomy-tx/src/lib.rs:220-222 | For the type the wallet uses the bytes of the copy are followed by 1, 0, 0, 0 |
| Sighash.PreimageCommitsExactly | vericonomy-tx/src/lib.rs:171-223 | Two preimages are equal if and only if hash type, stripped script and the committed view are, for every hash type and both ANYONECANPAY settings |
| Sighash.DigestIgnoresScriptSigs | vericonomy-tx/src/lib.rs:183-188 | Replacing scriptSigs of any inputs changes no input's digest |
| Sighash.SingleIgnoresOtherOutputs | vericonomy-tx/src/lib.rs:198-212 | Under SINGLE all outputs but the signed one can be replaced |
| Signer.FindSigningKey | vericonomy-wallet-engine/src/signer.rs:145-185 | The nested search returns the first match, external chain first, with the source's errors |
| Signer.SigningKeyOwnsScript | vericonomy-wallet-engine/src/signer.rs:145-185 | A key that is found owns both the address and the script |
| Signer.SigningKeyMeans | vericonomy-wallet-engine/src/signer.rs:145-185 | The key is that of the first position whose address and script match, external before internal, lower before higher, below 501, and internal only with an internal chain; otherwise the error for no address or for no key |
| Signer.PositionSignsIff | vericonomy-wallet-engine/src/signer.rs:157-170 | Among distinct addresses a discovered position has a signing key exactly below index 501 |
| Signer.AssembleTransaction | vericonomy-wallet-engine/src/signer.rs:25-90 | The loops build one input and secret per coin, the payments, and a last change output exactly above 546 sats, or fail with the first error |
| Signer.AssembledIff | vericonomy-wallet-engine/src/signer.rs:34-78 | Assembly succeeds exactly if every coin has script, id and key, the coins cover payments and fee, and every address used can be read, the change address only above 546 sats |
| Signer.BuildSignedTxHex | vericonomy-tx/src/lib.rs:268-283 | Signing one input after another on the changing transaction equals signing all of them on the untouched one |
| Signer.SignTransaction | vericonomy-wallet-engine/src/signer.rs:113-143 | Assembly and signing composed, with the id of the bytes produced |
| Verify.VerifySendOutputs | vericonomy-wallet-facade/src/verify.rs:22-53 | Accepts exactly when every expected payment is a positive amount found among the outputs |
| Verify.OutputsVerdictIff | vericonomy-wallet-facade/src/verify.rs:22-53 | Accepted are exactly decodable transactions with inputs and outputs in which every payment is a positive amount to the standard script of its address |
| Verify.VerifySignedP2pkhInputs | vericonomy-wallet-facade/src/verify.rs:86-158 | Accepts exactly when every input spends its coin, with a key of the right hash and a valid signature over the recomputed digest |
| Verify.InputsVerdictIff | vericonomy-wallet-facade/src/verify.rs:86-158 | Accepted are exactly decodable transactions that spend the coins in order, each by outpoint, with the key that its script names and a signature of type ALL over the bytes that such a signature covers |
| Verify.DecodeHexIff | vericonomy-tx/src/lib.rs:88-102 | Hex decodes to exactly the transaction whose bytes it begins with, if that fits the window |
| SignVerify.SigningSucceeds | vericonomy-tx/src/lib.rs:239-283 | Signing an assembled transaction never fails, and every input carries the signature over the untouched transaction |
| SignVerify.SignedFields | vericonomy-wallet-engine/src/signer.rs:80-87 | What is signed has version 1, the time now, no lock time, and names each coin once, in order, with the highest sequence; every input spends its coin as the network demands |
| SignVerify.SignedOutputs | vericonomy-wallet-engine/src/signer.rs:57-78 | It pays everyone in order, nothing where the amount is negative, and last, exactly above 546 sats, the change |
| SignVerify.PublishedMeans | vericonomy-wallet-engine/src/signer.rs:137-142 | The hex is that of the bytes, and the id shown is their double hash |
| SignVerify.SignedInputsAccepted | vericonomy-wallet-facade/src/verify.rs:86-158 | Every transaction that signing returns passes the signature check after decoding, if and only if it fits the window |
| SignVerify.SignedOutputsAccepted | vericonomy-wallet-facade/src/verify.rs:22-53 | It passes the output check exactly when it fits, spends and pays something, and every amount is positive |
| SignVerify.DecodeSerialized | vericonomy-tx/src/lib.rs:88-102 | The hex handed on decodes to the very transaction that was signed, or not at all |
| CoinSelection.SortFacts | vericonomy-wallet-engine/src/utxo_selector.rs:23-36 | The sort is ascending, a permutation, and stable |
| CoinSelection.SelectUtxos | vericonomy-wallet-engine/src/utxo_selector.rs:16-44 | The accumulating loop returns the specified selection, or missing funds |
| CoinSelection.SelectionIsBest | vericonomy-wallet-engine/src/utxo_selector.rs:16-44 | The result is the smallest single sufficient coin, or the shortest ascending prefix that suffices if no coin does, and takes no coin twice |
| CoinSelection.SelectionComplete | vericonomy-wallet-engine/src/utxo_selector.rs:16-44 | Selection succeeds exactly for a positive target that all coins together cover |
| CoinSelection.SelectionMonotone | vericonomy-wallet-engine/src/utxo_selector.rs:16-44 | A larger target never takes fewer coins or a smaller sum |
| FeePlan.FeeClosedForm | vericonomy-wallet-engine/src/utxo_selector.rs:47-70 | The fee is max(rate, 100000) times the started thousands of bytes plus one |
| FeePlan.FeeInNumbers | vericonomy-wallet-engine/src/utxo_selector.rs:47-70 | In numbers: the asked rate, or 100,000 if that is more, times one plus the thousands in 14 + 148 inputs + 34 outputs |
| FeePlan.FeeMonotone | vericonomy-wallet-engine/src/utxo_selector.rs:47-70 | Larger sizes never cost less; fees are equal exactly within one level |
| FeePlan.PlanSendUtxos | vericonomy-wallet-engine/src/utxo_selector.rs:80-107 | The eight-round loop is the bounded fixpoint iteration over selection and fee |
| FeePlan.PlanIsSelfConsistent | vericonomy-wallet-engine/src/utxo_selector.rs:92-101 | A returned fee is a fixpoint: its own selection asks for exactly that fee |
| FeePlan.PlanNeverPassesRobustFee | vericonomy-wallet-engine/src/utxo_selector.rs:80-107 | For any number of recipients the planner neither passes nor misses a fixpoint that pays change or costs the same if it did |
| PlannerLimits.FlatPlanIsLeast | vericonomy-wallet-engine/src/utxo_selector.rs:80-107 | Where a change output never changes the fee level, a planned fee is the least fixpoint and missing funds means that there is none |
| PlannerRounds.PlanFollowsRounds | vericonomy-wallet-engine/src/utxo_selector.rs:91-105 | As long as the fees tried differ, the planner's outcome is that of the remaining rounds from the fee tried now |
| PlannerRounds.FeesNeverFall | vericonomy-wallet-engine/src/utxo_selector.rs:91-105 | Where a change output never changes the fee level, no round tries a lower fee than the round before it |
| PlannerLimits.FlatUpToTwelve | vericonomy-wallet-engine/src/utxo_selector.rs:47-70 | For one recipient that condition holds up to exactly twelve inputs, at every rate |
| PlannerLimits.PlannerExactUpToTwelve | vericonomy-wallet-engine/src/utxo_selector.rs:80-107 | With at most twelve coins the planner always settles: success if and only if a fixpoint exists, and then on the least |
| PlannerLimits.PlannerMissesAtThirteen | vericonomy-wallet-engine/src/utxo_selector.rs:80-107 | At every rate, thirteen coins for which missing funds is reported although twice the rate is a fixpoint |
| PlannerLimits.NeverTurnsAwayIff | vericonomy-wallet-engine/src/utxo_selector.rs:80-107 | No affordable payment is turned away for wallets of up to n coins, if and only if n is at most twelve |
| PlannerRounds.AlternatesForEver | vericonomy-wallet-engine/src/utxo_selector.rs:91-107 | At every rate, thirteen coins for which two fees ask for each other, so that no number of rounds settles |
| PlannerRounds.AlwaysSettlesIff | vericonomy-wallet-engine/src/utxo_selector.rs:80-107 | No payment from a wallet of up to n coins ends without convergence, if and only if n is at most twelve |
| PlannerBound.EightRoundsDecide | vericonomy-wallet-engine/src/utxo_selector.rs:91-107 | With at most 53 coins any number of rounds beyond eight gives the same outcome |
| PlannerBound.LadderCoins | vericonomy-wallet-engine/src/utxo_selector.rs:91-107 | At every rate, 54 coins for which eight rounds do not converge and nine do, on a fee that pays for itself |
| PlannerBound.EightRoundsSufficeIff | vericonomy-wallet-engine/src/utxo_selector.rs:91-107 | Eight rounds are enough for wallets of up to n coins, if and only if n is at most 53 |
| Replan.SettleFee | vericonomy-wallet-engine/src/utxo_selector.rs:122-139 | Any number of rounds from two on gives the outcome that the two possible fees determine |
| Replan.ReplanFeeForSelected | vericonomy-wallet-engine/src/utxo_selector.rs:109-143 | The code's eight rounds over the refreshed values give that outcome |
| Replan.SettledIsFixpoint | vericonomy-wallet-engine/src/utxo_selector.rs:109-143 | Success is the unique affordable fixpoint; no convergence means no fixpoint, exactly when the lower fee leaves room for change and the higher does not; missing funds is an unaffordable fixpoint |
| Replan.ReplanConfirmsPlan | vericonomy-wallet-facade/src/send.rs:57-60 | On the planner's own selection with unchanged values the second run returns the planner's fee |
| TxSize.ExactSize | vericonomy-wallet-engine/src/utxo_selector.rs:47-50 | The serialized size is the estimate, plus the bytes of counts beyond one, minus the bytes by which scriptSigs stay below 107 |
| TxSize.EstimateEnoughIff | vericonomy-wallet-engine/src/utxo_selector.rs:47-50 | For every spend of P2PKH outputs the estimate is enough exactly when the unused scriptSig bytes make up for the long counts |
| TxSize.AlwaysEnoughIff | vericonomy-wallet-engine/src/utxo_selector.rs:47-50 | It is enough for all signature lengths exactly below 253 inputs and 253 outputs |
| TxSize.FeeCoversIff | vericonomy-wallet-engine/src/utxo_selector.rs:47-70 | The fee of the estimate is at least the network minimum for the bytes serialized exactly if the price of its level is at least that of the level of the real size; up to the minimum rate, exactly if the real size reaches no higher level; always below 253 inputs and outputs |
| TxSize.AlwaysCoversIff | vericonomy-wallet-engine/src/utxo_selector.rs:47-70 | For all signature lengths, exactly if that holds at the estimate plus the bytes of counts beyond one |
| TxSize.AlwaysFitsIff | vericonomy-tx/src/lib.rs:68-102 | Whatever the signature lengths, a spend can be decoded again, if and only if it has at most 27,027 inputs and 117,646 outputs |
| TxSize.SpendConserves | vericonomy-wallet-engine/src/signer.rs:34-90 | Inputs equal outputs plus fee plus a remainder of 0 to 546 sats, which is 0 with change; outputs are as many as the fee was computed for |
| WindowLimits.LongestIsSigned | vericonomy-wallet-engine/src/signer.rs:113-143 | Every count of inputs and outputs is that of a signing, with lawful cryptography, whose scriptSigs are all as long as the estimate allows |
| WindowLimits.AlwaysAcceptedIff | vericonomy-wallet-facade/src/verify.rs:86-158 | Whatever the keys, coins and payments, the wallet accepts what it signed with n inputs and m outputs, if and only if n is at most 27,027 and m at most 117,646 |
| Hex.HexRoundTrip | vericonomy-tx/src/lib.rs:239-283 | Hex text decodes to the bytes it was made from |
| Hex.HexLayout | vericonomy-tx/src/lib.rs:282 | Each byte is shown by two digits, the high one first, from 0 to 9 and a to f |
| Hex.TrimFacts | vericonomy-wallet-facade/src/verify.rs:17-19 | Trimming takes white space from both ends and nothing else |
| Hex.ScriptPaysToMeansEqual | vericonomy-wallet-facade/src/verify.rs:17-19 | Comparing scripts as trimmed, case-blind hex is comparing their bytes |
| Hex.LowerIff | vericonomy-wallet-facade/src/verify.rs:17-19 | Ignoring case pairs each capital letter with its small one, and no other two characters |
| Hex.TxidRoundTrip | vericonomy-tx/src/lib.rs:40-62 | A displayed id parses back to the wire id |
| Hex.TxidLayout | vericonomy-tx/src/lib.rs:232-236 | A displayed id shows the 32 bytes of the wire id from the last to the first |
| UtxoPrep.FetchParentTxBytes | vericonomy-wallet-facade/src/utxo_prep.rs:15-39 | Tries the id and its reversal in order and returns the first answer or the last error |
| UtxoPrep.ParentBytesMeans | vericonomy-wallet-facade/src/utxo_prep.rs:15-39 | Asked is for the trimmed id, and if that is not known for the 32 bytes backwards, unless they are the same; the first answer counts, or the last error |
| UtxoPrep.ApplyParentTxToUtxo | vericonomy-wallet-facade/src/utxo_prep.rs:41-75 | One coin changes in place, and no other; after a script mismatch it is the old coin with the parent's value |
| UtxoPrep.FromParentIff | vericonomy-wallet-facade/src/utxo_prep.rs:41-75 | The parent is accepted exactly if it decodes, has the output, and that pays the script the coin has |
| UtxoPrep.ApplyUtxoFromWalletCache | vericonomy-wallet-facade/src/utxo_prep.rs:77-113 | Script and id from the wallet's own record; a bad id leaves the derived script behind |
| UtxoPrep.FromCacheMeans | vericonomy-wallet-facade/src/utxo_prep.rs:77-113 | The record is accepted exactly if it has the standard script of its address and an id of 32 bytes; the coin keeps outpoint, value and script bytes if its id parses |
| UtxoPrep.NormalizedMeans | vericonomy-wallet-facade/src/utxo_prep.rs:102-112 | An id that parses is kept, one that parses only after trimming is turned round, any other is an error |
| UtxoPrep.PrepareUtxosForSigning | vericonomy-wallet-facade/src/utxo_prep.rs:116-134 | Every coin in the vector is refreshed in place; on the first failure the coins before it are refreshed, it is left as its step leaves it, and those behind it are untouched |
| UtxoPrep.RefreshedMeans | vericonomy-wallet-facade/src/utxo_prep.rs:116-134 | A coin comes from its parent, or from the record exactly if the parent is not found and the coin is confirmed |
| UtxoPrep.LeftMeans | vericonomy-wallet-facade/src/utxo_prep.rs:41-113 | A failed step leaves the coin with the value its parent shows, or with its script written anew, and otherwise as it was |
| UtxoPrep.RefreshedFromParent | vericonomy-wallet-facade/src/utxo_prep.rs:41-75 | A refreshed coin has the parent output's value, as a signed number, and script, the parent's id, the script it had before, and everything else unchanged |
| Send.PlannerInRange | vericonomy-wallet-engine/src/utxo_selector.rs:91-105 | With plausible money, in every round of the planner the fee tried, the target, the selection's sum and what they leave stay within 64 bits |
| Send.RunningTotalsInRange | vericonomy-wallet-engine/src/utxo_selector.rs:35-43 | So does every running total of the selection loop |
| Send.PricingInRange | vericonomy-wallet-engine/src/utxo_selector.rs:52-70 | Every intermediate product and sum of pricing a size lies between 0 and the fee |
| Send.QuoteInRange | vericonomy-wallet-facade/src/send.rs:57-60 | The refreshed sum, the fee finally chosen and the change stay within 64 bits, and the fee is the price of the outputs it leaves room for |
| Send.QuoteMeans | vericonomy-wallet-facade/src/send.rs:43-60 | A quote is exactly: the coins planned at the user's rate, or at 100,000 if that is not positive, each refreshed, and the fee planned again for them at the same rate |
| Send.SendPayment | vericonomy-wallet-facade/src/send.rs:35-87 | The two verification stages turn a signed payment away exactly if it is too large to be decoded or its amount is not positive: otherwise the pipeline equals the one without them; a payment that spends at most 27,027 coins is never too large |
| Send.CompletedPaymentDelivers | vericonomy-wallet-facade/src/send.rs:57-87 | A completed payment's hex decodes to a transaction of now that spends exactly the coins reported, each as the network demands; it pays the recipient the amount, returns exactly the reported change in a last output or leaves at most 546 sats, conserves value, and costs what the user's rate asks for; that reaches the network minimum for the bytes broadcast exactly if the level of the estimate pays for them, which fewer than 253 coins guarantee |
| GapScan.StopIsTheRule | vericonomy-wallet-facade/src/gap_scan.rs:42-98 | The reference scan stops at the end of the range or behind a full gap of unused positions, and not earlier |
| GapScan.StopMonotone | vericonomy-wallet-facade/src/gap_scan.rs:42-98 | Forgetting part of the counter, or more positions in use, never makes a scan stop earlier |
| GapScan.RestartReachesStop | vericonomy-wallet-facade/src/gap_scan.rs:43-45 | A restart with a fresh counter inside the range reaches at least the old stop |
| GapScan.WithFundedFacts | vericonomy-wallet-facade/src/gap_scan.rs:66-80 | Collecting keeps the given list as a prefix, adds every used script of the range and nothing else, and no duplicates |
| GapScan.ScanChainFacts | vericonomy-wallet-facade/src/gap_scan.rs:29-99 | Under any answers: a complete call examined exactly the rule's range, a paused one exactly start to next index; the saved list is the one in memory and never shrinks |
| GapScan.BatchSizeIsInvisible | vericonomy-wallet-facade/src/gap_scan.rs:29-99 | Without interruption scripts and list are those of the one-at-a-time rule, for every batch size from 1 |
| Keystore.KeystoreService.IndexingProgress | vericonomy-storage/src/light_keystore.rs:272-291 | Returns the repaired positions |
| Keystore.RepairedMeans | vericonomy-storage/src/light_keystore.rs:272-291 | The repair marks the external chain finished if there is an internal position, and changes nothing else |
| Keystore.KeystoreService.SetIndexingProgress | vericonomy-storage/src/light_keystore.rs:293-317 | Stores the positions; an unchanged one needs no write; a failed write changes nothing |
| Keystore.KeystoreService.RegisterFundedScriptHex | vericonomy-storage/src/light_keystore.rs:225-240 | Appends the script unless the list holds it in either letter case |
| Keystore.RegisteredMeans | vericonomy-storage/src/light_keystore.rs:225-240 | The script is held afterwards, and at most one entry is added, behind the others |
| Keystore.HoldsMeans | vericonomy-storage/src/light_keystore.rs:229-235 | A script in hex is held exactly if an entry is hex for the same bytes |
| Keystore.KeystoreService.SetFundedScriptHexes | vericonomy-storage/src/light_keystore.rs:215-223 | Replaces the list, or changes nothing if the write fails |
| Keystore.AllRegisteredHolds | vericonomy-wallet-facade/src/wallet_cache.rs:140-151 | After registering a series of scripts every one whose write succeeded is held, in one letter case or the other |
| Keystore.AllRegisteredAdds | vericonomy-wallet-facade/src/wallet_cache.rs:140-151 | Nothing else is added |
| Keystore.KeystoreService.MarkAddressScanComplete | vericonomy-storage/src/light_keystore.rs:328-340 | Marks both chains done at position 0 and keeps the list |
| Keystore.KeystoreService.MarkAddressScanIncomplete | vericonomy-storage/src/light_keystore.rs:342-354 | Resets the positions and keeps the list |
| Keystore.KeystoreService.ImportWallet | vericonomy-storage/src/light_keystore.rs:90-107 | A new seed starts with no script, no position and no completed scan, or nothing changes if the write fails |
| SyncEngine.ProcessBatch | vericonomy-wallet-facade/src/gap_scan.rs:65-80 | The loop over a served batch examines up to the rule's stop and reports whether anything new was found |
| SyncEngine.LightSyncEngine.ScanBatch | vericonomy-wallet-facade/src/gap_scan.rs:45-91 | One request, its results and the hook that saves them are one turn of the scan |
| SyncEngine.LightSyncEngine.DiscoverChainScriptHexes | vericonomy-wallet-facade/src/gap_scan.rs:29-99 | The loop is the batched scan and changes only the saved list |
| SyncEngine.LightSyncEngine.DiscoverScriptHexes | vericonomy-wallet-facade/src/gap_scan.rs:101-175 | One slice: external chain, then internal, with progress left as it was on a hard error |
| SyncEngine.LightSyncEngine.RunGapScan | vericonomy-wallet-facade/src/sync_engine.rs:371-473 | The slice loop with its saves stores exactly what the model run stores, however it ends |
| SyncEngine.ScanEnds | vericonomy-wallet-facade/src/sync_engine.rs:444-447 | Only a run that completes marks the scan complete, with both chains done, and only if that is written |
| SyncEngine.FailedSaveEnds | vericonomy-wallet-facade/src/sync_engine.rs:436-437 | An advance that cannot be saved ends the run with an error, and the old position stays |
| SyncEngine.LightSyncEngine.ExtendFundedFromPrecachedBalances | vericonomy-wallet-facade/src/sync_engine.rs:304-327 | The first 32 precached scripts with a positive balance are appended once each, and stored only with the seed at hand |
| SyncEngine.ChunkMeans | vericonomy-wallet-facade/src/sync_engine.rs:304-327 | The extended list holds the old scripts and besides exactly those of the first 32 precached ones with a positive balance |
| SyncEngine.LightSyncEngine.RefreshUtxos | vericonomy-wallet-facade/src/sync_engine.rs:329-360 | Registers the script of every listed output, ignoring writes that fail; an error, and nothing else, if the listing fails or the budget does not admit it |
| SyncEngine.ListedMeans | vericonomy-wallet-facade/src/sync_engine.rs:329-360 | After a listing that is served every listed script whose write succeeds is held, and nothing else is added; one that fails changes nothing |
| SyncEngine.LightSyncEngine.Sync | vericonomy-wallet-facade/src/sync_engine.rs:139-177 | Scan if one is due and the wallet is unlocked, followed by a listing under what its budget leaves, else refresh; record, error and reported completeness are those of the model step |
| SyncEngine.SyncMeans | vericonomy-wallet-facade/src/sync_engine.rs:139-177 | With a complete scan it is a refresh; with a due one and no seed it changes nothing |
| SyncEngine.LightSyncEngine.RefreshUtxosFromNetwork | vericonomy-wallet-facade/src/sync_engine.rs:288-302 | Extension and registration after one another; record and error are those of the model step |
| SyncEngine.RefreshMeans | vericonomy-wallet-facade/src/sync_engine.rs:288-360 | A refresh keeps positions and scripts, adds exactly offered scripts if the seed is at hand and listed ones, and fails exactly if balances, saving or listing do |
| SyncEngine.LightSyncEngine.BeginManualRescan | vericonomy-wallet-facade/src/sync_engine.rs:209-258 | Refused exactly under the four guards; otherwise stores the time, and unless that write fails resets positions and probe and keeps the list |
| Rescan.RescansAreApart | vericonomy-wallet-facade/src/sync_engine.rs:619-635 | Over any series of attempts, however the clock jumps, two admitted ones are an hour of clock time apart |
| Rescan.FirstAdmittedIff | vericonomy-wallet-facade/src/sync_engine.rs:209-240 | Without an earlier attempt one is admitted exactly if the wallet is unlocked, idle and completely scanned |
| Rescan.UnreadableTime | vericonomy-wallet-facade/src/sync_engine.rs:619-628 | A stored time that cannot be read is no reason to wait |
| Rescan.StoredTime | vericonomy-wallet-facade/src/sync_engine.rs:242-256 | The time of an admitted attempt is stored, and no entry changes but that and the two of the probe |
| Rescan.NextAdmittedIff | vericonomy-wallet-facade/src/sync_engine.rs:234-252 | After an admitted attempt the next is admitted exactly for an unlocked, idle wallet an hour later, also if the first reset nothing |
| ScanSafety.ChainScanKeeps | vericonomy-wallet-facade/src/gap_scan.rs:29-99 | One chain scan from a saved position, on a chain that may show more in use, leaves a position below which nothing used is missing, or a finished chain with everything the reference scan finds |
| ScanSafety.Perform | vericonomy-wallet-facade/src/sync_engine.rs:139-258 | The engine and its keystore take each step of the state machine as the machine says |
| ScanSafety.EveryRunKeeps | vericonomy-wallet-facade/src/sync_engine.rs:371-473 | Over every run of synchronisations with any pauses, errors and failed writes, refreshes at any time, rescans, registrations and imports of other keys, while the chain changes from step to step: saved positions stay truthful about all that keeps a balance throughout, the repair on load is the identity, and the list never shrinks without an import |
| ScanSafety.CompleteMeansFound | vericonomy-wallet-facade/src/sync_engine.rs:446-447 | A wallet marked complete holds every script of its present keys that an uninterrupted scan finds among those that kept a balance throughout |
| ScanSafety.CompleteHoldsBalances | vericonomy-wallet-facade/src/gap_scan.rs:42-98 | In plain words: held is every script that kept a balance, up to the first twenty positions in a row that did not |
| ScanSafety.InterruptionsHideNothing | vericonomy-wallet-facade/src/gap_scan.rs:42-99 | However often paused, a chain scan examines one contiguous range that contains the uninterrupted one |
| ScanProgress.PausedSliceAdvances | vericonomy-wallet-facade/src/sync_engine.rs:416-444 | A paused slice brings the two positions closer to the end by exactly the scripts it was served |
| ScanProgress.StalledSliceEnds | vericonomy-wallet-facade/src/sync_engine.rs:438-443 | A slice that pauses without having advanced ends the run |
| ScanProgress.PausingBackendFinishes | vericonomy-wallet-facade/src/sync_engine.rs:416-447 | With a backend that pauses only when the budget cannot pay for a batch, one run finishes both chains from any saved state |
| ScanProgress.KnownWordsFinish | vericonomy-errors/src/lib.rs:106-108 | If only the refusals of the client came with the words that the scan recognises, one run would finish both chains from any saved state |
| ScanProgress.OneBudgetPays | vericonomy-chain/src/electrum/manager.rs:84-102 | With a client that never pauses, whatever calls and writes fail, a completed run has paid for both chains from one budget, and a run that costs more leaves the positions as they were |
| ScanProgress.OneBudgetOrNothing | vericonomy-chain/src/electrum/manager.rs:84-102 | If nothing but the budget fails it, a run completes exactly when one budget pays for all of it, and otherwise leaves the positions as they were |
| ScanProgress.TooLargeIsNeverIndexed | vericonomy-errors/src/lib.rs:106-108 | Repeating a run that costs more than one budget any number of times, on a changing chain and whatever else fails, with refreshes and registrations in between, never completes the scan |
| ScanProgress.ClientFailsOnBudget | vericonomy-chain/src/electrum/manager.rs:84-102 | The Electrum client is such a client for any server and writes, and with a working server serves exactly what the budget covers |
| ScanProgress.TooLargeIff | vericonomy-wallet-facade/src/gap_scan.rs:45-98 | With the first n addresses used, a fresh scan of one chain needs more than one budget exactly from n = 173 on |
| ScanProgress.LargeWalletNeverIndexed | vericonomy-chain/src/electrum/manager.rs:91 | With the client as it is, whatever its server answers and which writes succeed, no number of synchronisations and rescans completes the scan of a wallet with 173 or more leading addresses in use |
| ScanProgress.FirstSyncIff | vericonomy-wallet-facade/src/sync_engine.rs:446-470 | With a working server, a first synchronisation of one chain with the first n addresses used marks the scan complete exactly up to n = 172, and ends without an error exactly up to n = 76 |
| ScanProgress.PrefixWorlds | vericonomy-wallet-facade/src/gap_scan.rs:45-98 | There are such wallets for every n of the range |
| Indexing.ElectrumLightClient.TakeRpcBudget | vericonomy-chain/src/electrum/manager.rs:84-102 | Grants and spends, or refuses and marks the budget exhausted |
| Indexing.ElectrumLightClient.FetchScripthashJson | vericonomy-chain/src/electrum/manager.rs:262-283 | One unit per script until a refusal or an error |
| Indexing.ElectrumLightClient.SetInitialIndexingLimits | vericonomy-chain/src/electrum/manager.rs:557-569 | A fresh budget, not exhausted |
| Indexing.ElectrumLightClient.ClearInitialIndexingLimits | vericonomy-chain/src/electrum/manager.rs:578-580 | No limits |
| Indexing.FetchClosedForm | vericonomy-chain/src/electrum/manager.rs:262-283 | A fetch succeeds exactly when the budget covers every script and the server answers every call; if the server does, it drains what it needs or all there is |
| Indexing.SpentByFetch | vericonomy-chain/src/electrum/manager.rs:84-102 | After fetches that were served, only their number of scripts has left the budget |
| Indexing.BudgetBoundsSlice | vericonomy-chain/src/electrum/manager.rs:84-102 | However a slice's fetches are cut, they make no more calls than its budget, whatever the server answers |
| Indexing.FetchSplits | vericonomy-chain/src/electrum/manager.rs:262-283 | Two fetches after one another are one fetch of both, in result, remaining budget and calls |
| Indexing.NoLimitsNoRefusal | vericonomy-chain/src/electrum/manager.rs:84-88 | Without limits only the server decides, and its answers are returned in order |
| Indexing.KnownWordsPause | vericonomy-errors/src/lib.rs:106-108 | With recognised words a request beyond the budget would be a pause |
| Indexing.ClientNeverPauses | vericonomy-chain/src/electrum/manager.rs:89-96 | To the scan a request is never a pause, whatever the server answers, and served only if it fits the rest of the budget; with a working server, exactly then |
| KeySet.U32RoundTrip | vericonomy-wallet-facade/src/wallet_cache.rs:211 | A printed output index parses back |
| KeySet.DigitsAreDecimal | vericonomy-wallet-facade/src/wallet_cache.rs:211 | Digits in front count ten times as much for every digit behind them |
| KeySet.DigitIsItsValue | vericonomy-wallet-facade/src/wallet_cache.rs:211 | A single digit is read as its value |
| KeySet.ParseUtxoKeySet | vericonomy-wallet-facade/src/wallet_cache.rs:204-217 | The loop collects exactly the pieces that are an id, a colon and an index |
| KeySet.ParsedAreClean | vericonomy-wallet-facade/src/wallet_cache.rs:204-217 | Whatever text was stored, no id read from it contains a comma or a colon |
| KeySet.KeysRoundTripIff | vericonomy-wallet-facade/src/wallet_cache.rs:155-183 | A printed key set reads back as the same set if and only if no id contains a comma or a colon |
| UtxoTable.SqliteWalletCache.ListUtxos | vericonomy-storage-sqlite/src/lib.rs:99-124 | Every row once, by falling height |
| UtxoTable.SqliteWalletCache.ReplaceUtxos | vericonomy-storage-sqlite/src/lib.rs:126-216 | The loops leave the specified table, touch no metadata, and report a change exactly when an entry or a key differs |
| UtxoTable.ListingReadsBack | vericonomy-storage-sqlite/src/lib.rs:99-216 | After replacing by distinct outpoints a listing gives back exactly those coins, in everything but their address, by falling height |
| UtxoTable.SqliteWalletCache.UpsertUtxo | vericonomy-storage-sqlite/src/lib.rs:279-291 | Listing, editing and replacing is a single map update |
| UtxoTable.SqliteWalletCache.RemoveUtxo | vericonomy-storage-sqlite/src/lib.rs:293-302 | Exactly one key goes, and whether it was there is reported |
| UtxoTable.ReplaceIsPlainIff | vericonomy-storage-sqlite/src/lib.rs:126-216 | The differential replacement equals plain replacement if and only if no repeated outpoint ends stale; always for distinct outpoints |
| UtxoTable.ChangedMeansDifferent | vericonomy-storage-sqlite/src/lib.rs:182-205 | A change is reported exactly when the table's contents differ, for any incoming list |
| UtxoTable.TimesKept | vericonomy-storage-sqlite/src/lib.rs:176-196 | For distinct outpoints an unchanged row keeps its time and any other gets the new one |
| WalletCache.BalanceFromUtxoCache | vericonomy-wallet-facade/src/wallet_cache.rs:20-56 | The balance is the worth of the confirmed and unconfirmed rows that stay, and exactly the untrusted unconfirmed ones are evicted |
| WalletCache.BalanceFacts | vericonomy-wallet-facade/src/wallet_cache.rs:20-56 | Looking again evicts nothing more, and the two parts add up to the table's worth |
| WalletCache.KeptAfterListing | vericonomy-wallet-facade/src/wallet_cache.rs:29-49 | After a listing is stored exactly the unconfirmed rows are evicted that it does not hold and no payment registered |
| WalletCache.NothingListedYet | vericonomy-wallet-facade/src/wallet_cache.rs:29-49 | Before any listing nothing is evicted |
| WalletCache.StoreLastElectrumUtxoKeys | vericonomy-wallet-facade/src/wallet_cache.rs:155-167 | The listing's keys are stored in order |
| WalletCache.OptimisticReadsBack | vericonomy-wallet-facade/src/wallet_cache.rs:169-183 | Registering adds exactly one key to the set read back, if and only if its id is clean |
| WalletCache.ApplyLocalSendCacheUpdate | vericonomy-wallet-facade/src/wallet_cache.rs:57-153 | Spent rows go, a change entry above 546 sats comes in at the last output index and is registered, the history rows of the transaction are merged, the scripts spent and of the change are registered; each failure leaves what the code leaves |
| Ledger.SendTwiceIsOnce | vericonomy-wallet-facade/src/wallet_cache.rs:79-100 | Applying the update twice leaves the rows, and for a clean id the registered keys, of applying it once |
| Ledger.ChangeIsKeptIff | vericonomy-wallet-facade/src/wallet_cache.rs:34-49 | The next balance keeps the change entry if and only if its id is clean or nothing was listed yet |
| Ledger.KeptAfterSend | vericonomy-wallet-facade/src/wallet_cache.rs:20-100 | Apart from the change entry the next balance keeps exactly the old rows that were not spent |
| Ledger.BalanceWithChange | vericonomy-wallet-facade/src/wallet_cache.rs:20-100 | The next balance is the old one minus what was spent plus the change |
| Ledger.EntryAgrees | vericonomy-wallet-facade/src/wallet_cache.rs:82-98 | The payment's hex decodes to the signed transaction, and the change entry is its last output in value, script and index |
| Ledger.UpdateSucceeds | vericonomy-wallet-facade/src/wallet_cache.rs:74-100 | After a completed payment the update of the outputs cannot fail |
| Ledger.SpentIsCached | vericonomy-wallet-facade/src/send.rs:50-59 | If the coins offered are rows of the cache and the chain agrees with it, so are the coins finally spent |
| Ledger.SpendableIsCached | vericonomy-wallet-facade/src/sync_engine.rs:269-272 | The confirmed coins of a listing, with addresses filled in, are rows that the next balance keeps |
| Ledger.IdIsClean | vericonomy-wallet-facade/src/send.rs:76-80 | If the backend answers with the id of what it was sent, the entry carries the signed transaction's id, which can be stored |
| Ledger.SendAndUpdate | vericonomy-wallet-facade/src/session.rs:278-306 | A payment that fails changes nothing. One that is completed delivers as above, and from the transaction sent follow: the rows (spent coins gone, the last output in), the history (nothing told is lost, new rows are stored), the scripts held (those spent and the change script exactly above 546 sats). If moreover the coins offered are rows of the cache, the chain agrees and the backend answers a new id of what it was sent, the next balance is lower by the amount, the fee and the dust left behind |
| Ledger.BalanceAfterListing | vericonomy-wallet-facade/src/sync_engine.rs:336-344 | After a listing of distinct outpoints the balance is the listing's total and evicts nothing |
| Ledger.PartsAfterListing | vericonomy-wallet-facade/src/wallet_cache.rs:20-56 | Its confirmed part is the worth of the confirmed coins listed, its unconfirmed part that of the others |
| History.MergeTxHistory | vericonomy-wallet-facade/src/history.rs:13-36 | The loops and the sort return each merged row once, latest first, then highest first, with no key repeated |
| History.RowKeyIff | vericonomy-chain/src/history_rows.rs:11-18 | For ids and categories without a colon two rows have one key exactly if id, category and address agree, where no address counts as an empty one |
| History.MergeKeepsMovements | vericonomy-wallet-facade/src/history.rs:13-36 | Every row given has a row of its id, category and address in the result, every row of the result was given, and no two agree in all three |
| History.ConfirmedStays | vericonomy-wallet-facade/src/history.rs:20-28 | What is confirmed in the pending rows, or in a base without repetitions, is confirmed in the result |
| History.LatestFirst | vericonomy-wallet-facade/src/history.rs:29-35 | Later rows come first, rows without a time last, and of one time the higher first |
| History.PickMeans | vericonomy-wallet-facade/src/history.rs:20-28 | The preferred row is the last confirmed one, or the last if none is confirmed |
| History.MergeClosedForm | vericonomy-wallet-facade/src/history.rs:13-28 | Keys are the union of both inputs; a key's row is the preferred one of the base's last row followed by the pending ones |
| History.MergePicksAmongAllIff | vericonomy-wallet-facade/src/history.rs:16-28 | It is the preferred one of all rows of both inputs, except exactly when a confirmed base row is followed by a pending one in the base and no pending row is confirmed |
| History.DistinctBaseLosesNothing | vericonomy-wallet-facade/src/history.rs:13-28 | For a base without repeated keys it is the preferred one of all rows of both inputs |
| History.TxCache.AppendLocalTxHistoryRows | vericonomy-wallet-facade/src/wallet_cache.rs:185-202 | Loading the stored rows in any order, merging and storing them again is merging in place |
| History.MergeRecords | vericonomy-wallet-facade/src/wallet_cache.rs:185-202 | Nothing told before or added is lost, a row whose movement is new is stored itself, and a stored row of which nothing new is told stays |
| History.MergesCompose | vericonomy-wallet-facade/src/history.rs:13-36 | Merging pending rows in turn, each time into the stored result, is merging them all at once |
| History.ConfirmedRowLost | vericonomy-wallet-facade/src/history.rs:16-19 | Two rows of one key for which a confirmed one is lost |
| History.MergeIsIdempotent | vericonomy-wallet-facade/src/history.rs:13-36 | Merging the same pending rows into the result again changes no key's row |

## Left out

- Wire.TxRoundTrip: inputs carry no witnesses, because the format writes none and decoding leaves them empty.
- FeePlan.PlanSendUtxos: the loop takes selection and fee as function values, of which `CoinSelection.SelectUtxos` and `FeePlan.FeeForRate` compute the two used; the rate is in integer sats per 1000 bytes, not in floating-point coins.
- Signer.AssembleTransaction: sums are unbounded integers whose result the caller keeps in 64 bits; `Send.QuoteInRange` shows that the pipeline does. The transaction is a value that each step replaces, so aliasing does not arise.
- Sighash.VeriumSignatureHash: the copy that is edited is a value; its vectors are replaced as a whole.
- Send.SendPayment: assumes that the wallet's coins together, as it knows them and as the chain shows them, the amount, and the fee for spending every coin are each below 2^61, so that the source's 64-bit sums do not overflow; address format checks before the pipeline are not modelled.
- SyncEngine.LightSyncEngine.Sync: history refresh, the list of scripts a scan returns, the precache offset, the receive index and the reported balance have no part in the invariant; a timeout is an error at the request, or a failed write, during which it strikes; balances do not change during one synchronisation.
- SyncEngine.LightSyncEngine.BeginManualRescan: whether the wallet is unlocked or a scan is running, and the time, are parameters; in `ScanSafety` a rescan may come at any time.
- ScanSafety.EveryRunKeeps: two public keystore methods that nothing in the repository calls, one that stores precached scripts together with a completion mark and one that resets the positions, are not among the steps.
- ScanProgress.ClientFailsOnBudget: assumes that no server answers with the very words that the scan takes for an exhausted budget.
- Indexing.ElectrumLightClient.FetchScripthashJson: pacing, retries and failover are not modelled; a call has one answer.
- UtxoTable.SqliteWalletCache.ReplaceUtxos: SQL failures, which roll the transaction back, and the database file are not modelled.
- WalletCache.BalanceFromUtxoCache: sums are unbounded, the immature part is always zero, and storage failures are not modelled.
- WalletCache.ApplyLocalSendCacheUpdate: which history rows are made from the transaction is a function value; storage failures of outputs and history are not modelled.
- History.MergeTxHistory: amounts are integers instead of floating-point coins; a time is an unsigned 64-bit number or missing.
- The cryptography itself (SHA-256, RIPEMD-160, secp256k1, BIP32, BIP39, Base58, Argon2, AES-GCM): function values with the laws above. The consensus codec is that of the bitcoin crate, version 0.32 in Cargo.lock, which is not part of the repository; its layout, shortest counts and 4,000,000-byte limit for a vector are modelled as that crate has them.
- Sockets, JSON-RPC, throttling, the full-node adapter, explorer history, FFI, CLI and file storage: input and output around the modelled logic.
- Unlock sessions, passphrases, coin profiles, confirmation counts: single-branch logic.
- Simultaneous refreshes during a scan: the state machine is sequential.
