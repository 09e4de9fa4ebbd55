/** Assembling and signing a spend. */
module Signer {
  import opened Bytes
  import opened Hex
  import opened Outcome
  import opened ScriptCode
  import opened Sighash
  import opened Wallet
  import opened Wire

  // ---------------------------------------------------------------- key search

  function CheckKey(c: Crypto, seed: Seed, address: string, script: seq<Byte>, chain: HdChain, index: nat)
    : Result<bool>
  {
    var addr := AddressOf(c, c.pubkeyOf(seed.secretAt(chain, index)));
    if addr != address then Success(false)
    else
      var own :- AddressToScript(c, addr);
      Success(own == script)
  }

  /** The first matching secret on one chain from `index` on; the last index itself is not searched. */
  function SearchChain(c: Crypto, seed: Seed, address: string, script: seq<Byte>, chain: HdChain, index: nat)
    : Result<Option<seq<Byte>>>
    decreases GAP_SCAN_MAX_INDEX - index
  {
    if index >= GAP_SCAN_MAX_INDEX then Success(None)
    else
      var hit :- CheckKey(c, seed, address, script, chain, index);
      if hit then Success(Some(seed.secretAt(chain, index)))
      else SearchChain(c, seed, address, script, chain, index + 1)
  }

  function SigningKey(c: Crypto, seed: Seed, address: string, script: seq<Byte>): Result<seq<Byte>> {
    if address == "" then Failure(MissingAddress)
    else
      var external :- SearchChain(c, seed, address, script, External, 0);
      if external.Some? then Success(external.value)
      else if !seed.coreHd then Failure(NoSigningKey)
      else
        var found :- SearchChain(c, seed, address, script, Internal, 0);
        if found.Some? then Success(found.value) else Failure(NoSigningKey)
  }

  method FindOnChain(c: Crypto, seed: Seed, address: string, script: seq<Byte>, chain: HdChain)
    returns (r: Result<Option<seq<Byte>>>)
    ensures r == SearchChain(c, seed, address, script, chain, 0)
  {
    var index := 0;
    while index < GAP_SCAN_MAX_INDEX
      invariant 0 <= index <= GAP_SCAN_MAX_INDEX
      invariant SearchChain(c, seed, address, script, chain, 0) == SearchChain(c, seed, address, script, chain, index)
    {
      var hit :- CheckKey(c, seed, address, script, chain, index);
      if hit {
        return Success(Some(seed.secretAt(chain, index)));
      }
      index := index + 1;
    }
    return Success(None);
  }

  method FindSigningKey(c: Crypto, seed: Seed, address: string, script: seq<Byte>) returns (r: Result<seq<Byte>>)
    ensures r == SigningKey(c, seed, address, script)
  {
    if address == "" {
      return Failure(MissingAddress);
    }
    var found :- FindOnChain(c, seed, address, script, External);
    if found.None? && seed.coreHd {
      found :- FindOnChain(c, seed, address, script, Internal);
    }
    return if found.Some? then Success(found.value) else Failure(NoSigningKey);
  }

  /** With lawful cryptography a found key owns both the address and the script. */
  lemma {:induction false} SigningKeyOwnsScript(c: Crypto, seed: Seed, address: string, script: seq<Byte>)
    requires Lawful(c) && ValidSeed(c, seed)
    requires SigningKey(c, seed, address, script).Success?
    ensures var sk := SigningKey(c, seed, address, script).value;
            && c.validSecret(sk)
            && script == P2pkhScript(c.hash160(c.pubkeyOf(sk)))
            && address == AddressOf(c, c.pubkeyOf(sk))
  {
    SearchOwns(c, seed, address, script, External, 0);
    SearchOwns(c, seed, address, script, Internal, 0);
  }

  lemma {:induction false} SearchOwns(
    c: Crypto, seed: Seed, address: string, script: seq<Byte>, chain: HdChain, index: nat)
    requires Lawful(c) && ValidSeed(c, seed)
    ensures var r := SearchChain(c, seed, address, script, chain, index);
            r.Success? && (r.value.Some? ==>
              && c.validSecret(r.value.value)
              && script == P2pkhScript(c.hash160(c.pubkeyOf(r.value.value)))
              && address == AddressOf(c, c.pubkeyOf(r.value.value)))
    decreases GAP_SCAN_MAX_INDEX - index
  {
    if index < GAP_SCAN_MAX_INDEX {
      SearchOwns(c, seed, address, script, chain, index + 1);
    }
  }

  /** The address and the script at one position of a seed. */
  function AddressAt(c: Crypto, seed: Seed, chain: HdChain, index: nat): string {
    AddressOf(c, c.pubkeyOf(seed.secretAt(chain, index)))
  }

  function ScriptAt(c: Crypto, seed: Seed, chain: HdChain, index: nat): seq<Byte> {
    P2pkhScript(c.hash160(c.pubkeyOf(seed.secretAt(chain, index))))
  }

  /** No two positions that discovery examines share an address. */
  ghost predicate DistinctAddresses(c: Crypto, seed: Seed) {
    forall ch1: HdChain, i1: nat, ch2: HdChain, i2: nat ::
      (i1 <= GAP_SCAN_MAX_INDEX && i2 <= GAP_SCAN_MAX_INDEX
       && AddressAt(c, seed, ch1, i1) == AddressAt(c, seed, ch2, i2)) ==> (ch1 == ch2 && i1 == i2)
  }

  /** The search for one position's key, among distinct addresses, finds it exactly on its way. */
  lemma {:induction false} SearchFindsIff(c: Crypto, seed: Seed, chain: HdChain, p: nat, on: HdChain, index: nat)
    requires Lawful(c) && DistinctAddresses(c, seed) && p <= GAP_SCAN_MAX_INDEX
    ensures var r := SearchChain(c, seed, AddressAt(c, seed, chain, p), ScriptAt(c, seed, chain, p), on, index);
            r.Success? && (r.value.Some? <==> on == chain && index <= p < GAP_SCAN_MAX_INDEX)
    decreases GAP_SCAN_MAX_INDEX - index
  {
    if index < GAP_SCAN_MAX_INDEX {
      SearchFindsIff(c, seed, chain, p, on, index + 1);
      assert AddressAt(c, seed, on, index) == AddressAt(c, seed, chain, p) ==> on == chain && index == p;
    }
  }

  /** A discovered position can be signed for exactly below the last discovered index. */
  lemma {:induction false} PositionSignsIff(c: Crypto, seed: Seed, chain: HdChain, p: nat)
    requires Lawful(c) && DistinctAddresses(c, seed) && p <= GAP_SCAN_MAX_INDEX && AddressAt(c, seed, chain, p) != ""
    requires seed.coreHd || chain == External
    ensures SigningKey(c, seed, AddressAt(c, seed, chain, p), ScriptAt(c, seed, chain, p)).Success?
        <==> p < GAP_SCAN_MAX_INDEX
  {
    SearchFindsIff(c, seed, chain, p, External, 0);
    SearchFindsIff(c, seed, chain, p, Internal, 0);
  }

  /** The key at this position has the address, and its standard script is the one given. */
  predicate Matches(c: Crypto, seed: Seed, address: string, script: seq<Byte>, chain: HdChain, index: nat) {
    var hash := c.hash160(c.pubkeyOf(seed.secretAt(chain, index)));
    c.encodeAddress(hash) == address && script == P2pkhScript(hash)
  }

  ghost predicate NoMatchBefore(c: Crypto, seed: Seed, address: string, script: seq<Byte>, chain: HdChain, end: nat) {
    forall i: nat :: i < end ==> !Matches(c, seed, address, script, chain, i)
  }

  /** The first match there is: external before internal, lower before higher, and never at index 501. */
  ghost predicate FirstMatch(c: Crypto, seed: Seed, address: string, script: seq<Byte>, chain: HdChain, index: nat) {
    && index < 501 && Matches(c, seed, address, script, chain, index)
    && NoMatchBefore(c, seed, address, script, chain, index)
    && (chain.Internal? ==> seed.coreHd && NoMatchBefore(c, seed, address, script, External, 501))
  }

  lemma {:induction false} SearchMeans(c: Crypto, seed: Seed, address: string, script: seq<Byte>, chain: HdChain,
                                       index: nat) returns (at: nat)
    requires Lawful(c) && index <= 501 && NoMatchBefore(c, seed, address, script, chain, index)
    ensures SearchChain(c, seed, address, script, chain, index).Success?
    ensures var r := SearchChain(c, seed, address, script, chain, index).value;
            if r.None? then NoMatchBefore(c, seed, address, script, chain, 501)
            else && at < 501 && r == Some(seed.secretAt(chain, at)) && Matches(c, seed, address, script, chain, at)
                 && NoMatchBefore(c, seed, address, script, chain, at)
    decreases 501 - index
  {
    at := index;
    if index < 501 {
      assert CheckKey(c, seed, address, script, chain, index)
          == Success(Matches(c, seed, address, script, chain, index));
      if !Matches(c, seed, address, script, chain, index) {
        at := SearchMeans(c, seed, address, script, chain, index + 1);
      }
    }
  }

  /** The key returned is that of the first match; without an address, or without a match, the errors are these. */
  lemma {:induction false} SigningKeyMeans(c: Crypto, seed: Seed, address: string, script: seq<Byte>)
    requires Lawful(c)
    ensures match SigningKey(c, seed, address, script)
            case Success(secret) =>
              address != "" && exists chain: HdChain, index: nat ::
                FirstMatch(c, seed, address, script, chain, index) && secret == seed.secretAt(chain, index)
            case Failure(e) =>
              if address == "" then e == MissingAddress
              else && e == NoSigningKey && NoMatchBefore(c, seed, address, script, External, 501)
                   && (seed.coreHd ==> NoMatchBefore(c, seed, address, script, Internal, 501))
  {
    if address != "" {
      var i := SearchMeans(c, seed, address, script, External, 0);
      if SearchChain(c, seed, address, script, External, 0).value.Some? {
        assert FirstMatch(c, seed, address, script, External, i);
      } else if seed.coreHd {
        var j := SearchMeans(c, seed, address, script, Internal, 0);
        if SearchChain(c, seed, address, script, Internal, 0).value.Some? {
          assert FirstMatch(c, seed, address, script, Internal, j);
        }
      }
    }
  }

  // ---------------------------------------------------------------- assembly

  datatype Unsigned = Unsigned(tx: Tx, secrets: seq<seq<Byte>>)

  datatype Prepared = Prepared(input: TxIn, secret: seq<Byte>)

  function PrepareInput(c: Crypto, seed: Seed, u: Utxo): Result<Prepared> {
    if u.scriptHex == "" then Failure(MissingScript)
    else
      var txid :- ParseDisplayTxid(u.txid);
      match HexDecode(Trim(u.scriptHex))
      case None => Failure(BadHex)
      case Some(script) =>
        var secret :- SigningKey(c, seed, u.address, script);
        Success(Prepared(TxIn(OutPoint(txid, u.vout), [], TWO_32 - 1), secret))
  }

  function PrepareAt(c: Crypto, seed: Seed, utxos: seq<Utxo>): nat -> Result<Prepared> {
    (k: nat) => if k < |utxos| then PrepareInput(c, seed, utxos[k]) else Failure(IndexOutOfRange)
  }

  function PayTo(c: Crypto, p: Payment): Result<TxOut> {
    var script :- AddressToScript(c, p.address);
    Success(TxOut(if p.sats < 0 then 0 else p.sats, script))
  }

  function PayAt(c: Crypto, outputs: seq<Payment>): nat -> Result<TxOut> {
    (k: nat) => if k < |outputs| then PayTo(c, outputs[k]) else Failure(IndexOutOfRange)
  }

  /** What remains for the sender; the caller keeps it, and the counts, within machine range. */
  function Change(utxos: seq<Utxo>, outputs: seq<Payment>, fee: int): int {
    Total(utxos) - TotalPaid(outputs) - fee
  }

  predicate MachineRange(utxos: seq<Utxo>, outputs: seq<Payment>, fee: int) {
    && -TWO_63 <= Change(utxos, outputs, fee) < TWO_63
    && |utxos| < TWO_63 && |outputs| < TWO_63
  }

  /** Change above dust is paid back in a last output; anything smaller is left to the miner. */
  function ChangeOutputs(c: Crypto, changeAddress: string, change: I64): Result<seq<TxOut>> {
    if change <= DUST_CHANGE_SATS then Success([])
    else
      var script :- AddressToScript(c, changeAddress);
      Success([TxOut(change, script)])
  }

  function Assembled(c: Crypto, seed: Seed, utxos: seq<Utxo>, outputs: seq<Payment>,
                     changeAddress: string, fee: int, now: U32): Result<Unsigned>
    requires MachineRange(utxos, outputs, fee)
  {
    var prepared :- Collect(|utxos|, PrepareAt(c, seed, utxos), 0);
    var change := Change(utxos, outputs, fee);
    if change < 0 then Failure(InsufficientFunds)
    else
      var paid :- Collect(|outputs|, PayAt(c, outputs), 0);
      var back :- ChangeOutputs(c, changeAddress, change);
      var inputs := seq(|utxos|, k requires 0 <= k < |utxos| => prepared[k].input);
      var secrets := seq(|utxos|, k requires 0 <= k < |utxos| => prepared[k].secret);
      Success(Unsigned(Tx(1, now, inputs, paid + back, 0), secrets))
  }

  predicate HasAddress(c: Crypto, address: string) {
    c.decodeAddress(address).Some? && |c.decodeAddress(address).value| == 20
  }

  /** A coin that can be spent: script and id can be read, and a key is found. */
  predicate CanSpend(c: Crypto, seed: Seed, u: Utxo) {
    && u.scriptHex != "" && HexDecode(u.txid).Some? && |HexDecode(u.txid).value| == 32
    && HexDecode(Trim(u.scriptHex)).Some?
    && SigningKey(c, seed, u.address, HexDecode(Trim(u.scriptHex)).value).Success?
  }

  /** Assembly succeeds exactly if every coin can be spent, nothing is missing, and every address used can be read. */
  lemma {:induction false} AssembledIff(c: Crypto, seed: Seed, utxos: seq<Utxo>, outputs: seq<Payment>,
                                        changeAddress: string, fee: int, now: U32)
    requires MachineRange(utxos, outputs, fee)
    ensures var change := Total(utxos) - TotalPaid(outputs) - fee;
            Assembled(c, seed, utxos, outputs, changeAddress, fee, now).Success? <==>
              && (forall k :: 0 <= k < |utxos| ==> CanSpend(c, seed, utxos[k]))
              && change >= 0
              && (forall k :: 0 <= k < |outputs| ==> HasAddress(c, outputs[k].address))
              && (change > 546 ==> HasAddress(c, changeAddress))
  {
    var prepare, pay := PrepareAt(c, seed, utxos), PayAt(c, outputs);
    CollectAll(|utxos|, prepare, 0);
    CollectAll(|outputs|, pay, 0);
    forall k | 0 <= k < |utxos|
      ensures prepare(k).Success? <==> CanSpend(c, seed, utxos[k])
    {
      CanPrepare(c, seed, utxos[k]);
    }
    forall k | 0 <= k < |outputs|
      ensures pay(k).Success? <==> HasAddress(c, outputs[k].address)
    {
      CanPay(c, outputs[k]);
    }
  }

  lemma {:induction false} CanPrepare(c: Crypto, seed: Seed, u: Utxo)
    ensures PrepareInput(c, seed, u).Success? <==> CanSpend(c, seed, u)
  {
  }

  lemma {:induction false} CanPay(c: Crypto, p: Payment)
    ensures PayTo(c, p).Success? <==> HasAddress(c, p.address)
  {
  }

  method PrepareOne(c: Crypto, seed: Seed, u: Utxo) returns (r: Result<Prepared>)
    ensures r == PrepareInput(c, seed, u)
  {
    if u.scriptHex == "" {
      return Failure(MissingScript);
    }
    var txid :- ParseDisplayTxid(u.txid);
    var script := HexDecode(Trim(u.scriptHex));
    if script.None? {
      return Failure(BadHex);
    }
    var secret :- FindSigningKey(c, seed, u.address, script.value);
    return Success(Prepared(TxIn(OutPoint(txid, u.vout), [], TWO_32 - 1), secret));
  }

  /** One input and one secret per coin, and the coins' sum. */
  method GatherInputs(c: Crypto, seed: Seed, utxos: seq<Utxo>) returns (r: Result<seq<Prepared>>, inputSum: int)
    ensures r == Collect(|utxos|, PrepareAt(c, seed, utxos), 0)
    ensures r.Success? ==> inputSum == Total(utxos)
  {
    ghost var n, step := |utxos|, PrepareAt(c, seed, utxos);
    var prepared: seq<Prepared> := [];
    inputSum := 0;
    CollectStart(n, step);
    assert utxos[0..] == utxos;
    for i := 0 to |utxos|
      invariant inputSum + Total(utxos[i..]) == Total(utxos)
      invariant Collect(n, step, 0) == After(prepared, Collect(n, step, i))
    {
      assert utxos[i..][1..] == utxos[i + 1..];
      CollectStep(n, step, i, prepared);
      var here := PrepareOne(c, seed, utxos[i]);
      if here.Failure? {
        return Failure(here.error), 0;
      }
      inputSum := inputSum + utxos[i].valueSats;
      prepared := prepared + [here.value];
    }
    CollectEnd(n, step, prepared);
    r := Success(prepared);
  }

  method BuildOutputs(c: Crypto, outputs: seq<Payment>) returns (r: Result<seq<TxOut>>)
    ensures r == Collect(|outputs|, PayAt(c, outputs), 0)
  {
    ghost var n, step := |outputs|, PayAt(c, outputs);
    var txOutputs: seq<TxOut> := [];
    CollectStart(n, step);
    for i := 0 to |outputs|
      invariant Collect(n, step, 0) == After(txOutputs, Collect(n, step, i))
    {
      CollectStep(n, step, i, txOutputs);
      var script :- AddressToScript(c, outputs[i].address);
      txOutputs := txOutputs + [TxOut(if outputs[i].sats < 0 then 0 else outputs[i].sats, script)];
    }
    CollectEnd(n, step, txOutputs);
    return Success(txOutputs);
  }

  method AssembleTransaction(c: Crypto, seed: Seed, utxos: seq<Utxo>, outputs: seq<Payment>,
                             changeAddress: string, fee: int, now: U32) returns (r: Result<Unsigned>)
    requires MachineRange(utxos, outputs, fee)
    ensures r == Assembled(c, seed, utxos, outputs, changeAddress, fee, now)
  {
    var gathered, inputSum := GatherInputs(c, seed, utxos);
    if gathered.Failure? {
      return Failure(gathered.error);
    }
    var prepared := gathered.value;
    var outputSum := 0;
    for i := 0 to |outputs|
      invariant outputSum + TotalPaid(outputs[i..]) == TotalPaid(outputs)
    {
      assert outputs[i..][1..] == outputs[i + 1..];
      outputSum := outputSum + outputs[i].sats;
    }
    var change := inputSum - outputSum - fee;
    if change < 0 {
      return Failure(InsufficientFunds);
    }
    var txOutputs :- BuildOutputs(c, outputs);
    if change > DUST_CHANGE_SATS {
      var script :- AddressToScript(c, changeAddress);
      txOutputs := txOutputs + [TxOut(change, script)];
    } else {
      assert txOutputs + [] == txOutputs;
    }
    var inputs := seq(|utxos|, k requires 0 <= k < |utxos| => prepared[k].input);
    var secrets := seq(|utxos|, k requires 0 <= k < |utxos| => prepared[k].secret);
    return Success(Unsigned(Tx(1, now, inputs, txOutputs, 0), secrets));
  }

  // ---------------------------------------------------------------- signing

  /** The two pushes that unlock a P2PKH output: signature with its hash type, then the key. */
  function SignScriptSig(c: Crypto, secret: seq<Byte>, digest: Hash256): Result<Script> {
    if !c.validSecret(secret) then Failure(BadSecret)
    else
      var key, der := c.pubkeyOf(secret), c.sign(secret, digest);
      if !c.verify(digest, der, key) then Failure(LocalSignatureRejected)
      else Success(PushSlice(der + [SIGHASH_ALL as Byte]) + PushSlice(key))
  }

  function ScriptSigFor(c: Crypto, tx: Tx, i: nat, scriptHex: Text, secret: seq<Byte>): Result<Script> {
    match HexDecode(Trim(scriptHex))
    case None => Failure(BadHex)
    case Some(script) =>
      var digest :- Digest(c.sha256d, tx, i, script, SIGHASH_ALL);
      SignScriptSig(c, secret, digest)
  }

  /** The scriptSig of each input, all computed on one and the same transaction. */
  function ScriptSigAt(c: Crypto, tx: Tx, scripts: seq<Text>, secrets: seq<seq<Byte>>): nat -> Result<Script> {
    (k: nat) => if k < |scripts| && k < |secrets| then ScriptSigFor(c, tx, k, scripts[k], secrets[k])
                else Failure(IndexOutOfRange)
  }

  function WithScriptSigs(tx: Tx, sigs: seq<Script>): Tx
    requires |sigs| <= |tx.inputs|
  {
    tx.(inputs := seq(|tx.inputs|, k requires 0 <= k < |tx.inputs| =>
      if k < |sigs| then tx.inputs[k].(scriptSig := sigs[k]) else tx.inputs[k]))
  }

  function Signed(c: Crypto, tx: Tx, scripts: seq<Text>, secrets: seq<seq<Byte>>): Result<Tx> {
    if |secrets| != |tx.inputs| || |scripts| != |tx.inputs| then Failure(CountMismatch)
    else
      var sigs :- Collect(|scripts|, ScriptSigAt(c, tx, scripts, secrets), 0);
      Success(WithScriptSigs(tx, sigs))
  }

  /**
   * Signs input after input, each signature over the transaction as changed so far; the result
   * is the one in which every signature was made over the untouched transaction.
   */
  method BuildSignedTxHex(c: Crypto, tx: Tx, scripts: seq<Text>, secrets: seq<seq<Byte>>)
    returns (r: Result<string>, signed: Tx)
    ensures match Signed(c, tx, scripts, secrets)
            case Failure(e) => r == Failure(e)
            case Success(t) => signed == t && r == Success(HexEncode(EncodeTx(t)))
  {
    signed := tx;
    if |secrets| != |tx.inputs| || |scripts| != |tx.inputs| {
      return Failure(CountMismatch), signed;
    }
    ghost var n, step, sigs: seq<Script> := |scripts|, ScriptSigAt(c, tx, scripts, secrets), [];
    CollectStart(n, step);
    for i := 0 to |secrets|
      invariant |sigs| == i
      invariant signed == WithScriptSigs(tx, sigs)
      invariant Collect(n, step, 0) == After(sigs, Collect(n, step, i))
    {
      CollectStep(n, step, i, sigs);
      var sig := SignInput(c, tx, signed, i, scripts[i], secrets[i]);
      if sig.Failure? {
        return Failure(sig.error), signed;
      }
      SetScriptSig(tx, sigs, sig.value);
      signed := signed.(inputs := signed.inputs[i := signed.inputs[i].(scriptSig := sig.value)]);
      sigs := sigs + [sig.value];
    }
    CollectEnd(n, step, sigs);
    var raw := SerializeVeriumTx(signed);
    r := Success(HexEncode(raw));
  }

  lemma {:induction false} SetScriptSig(tx: Tx, sigs: seq<Script>, sig: Script)
    requires |sigs| < |tx.inputs|
    ensures var t, i := WithScriptSigs(tx, sigs), |sigs|;
            t.(inputs := t.inputs[i := t.inputs[i].(scriptSig := sig)]) == WithScriptSigs(tx, sigs + [sig])
  {
    var t, i := WithScriptSigs(tx, sigs), |sigs|;
    assert t.inputs[i := t.inputs[i].(scriptSig := sig)] == WithScriptSigs(tx, sigs + [sig]).inputs;
  }

  /** Signing input `i` of the partly signed transaction is signing it in the original. */
  method SignInput(c: Crypto, ghost tx: Tx, signed: Tx, i: nat, scriptHex: Text, secret: seq<Byte>)
    returns (r: Result<Script>)
    requires signed == tx.(inputs := signed.inputs) && |signed.inputs| == |tx.inputs|
    requires forall k :: 0 <= k < |tx.inputs| ==>
      signed.inputs[k] == tx.inputs[k].(scriptSig := signed.inputs[k].scriptSig)
    ensures r == ScriptSigFor(c, tx, i, scriptHex, secret)
  {
    var script := HexDecode(Trim(scriptHex));
    if script.None? {
      return Failure(BadHex);
    }
    var digest := VeriumSignatureHash(c.sha256d, signed, i, script.value, SIGHASH_ALL);
    DigestIgnoresScriptSigs(c.sha256d, tx, signed, i, script.value, SIGHASH_ALL);
    if digest.Failure? {
      return Failure(digest.error);
    }
    r := SignScriptSig(c, secret, digest.value);
  }

  function ScriptHexes(utxos: seq<Utxo>): seq<Text> {
    seq(|utxos|, k requires 0 <= k < |utxos| => utxos[k].scriptHex)
  }

  function SpendTx(c: Crypto, seed: Seed, utxos: seq<Utxo>, outputs: seq<Payment>,
                   changeAddress: string, fee: int, now: U32): Result<Tx>
    requires MachineRange(utxos, outputs, fee)
  {
    var unsigned :- Assembled(c, seed, utxos, outputs, changeAddress, fee, now);
    Signed(c, unsigned.tx, ScriptHexes(utxos), unsigned.secrets)
  }

  datatype SignedTx = SignedTx(hex: string, txid: string)

  /** A transaction in hex with its id. */
  function Published(c: Crypto, t: Tx): SignedTx {
    SignedTx(HexEncode(EncodeTx(t)), DisplayTxid(c.sha256d(EncodeTx(t))))
  }

  method SignTransaction(c: Crypto, seed: Seed, utxos: seq<Utxo>, outputs: seq<Payment>,
                         changeAddress: string, fee: int, now: U32) returns (r: Result<SignedTx>)
    requires MachineRange(utxos, outputs, fee)
    ensures match SpendTx(c, seed, utxos, outputs, changeAddress, fee, now)
            case Failure(e) => r == Failure(e)
            case Success(t) => r == Success(Published(c, t))
  {
    var unsigned :- AssembleTransaction(c, seed, utxos, outputs, changeAddress, fee, now);
    var hex, t := BuildSignedTxHex(c, unsigned.tx, ScriptHexes(utxos), unsigned.secrets);
    if hex.Failure? {
      return Failure(hex.error);
    }
    HexRoundTrip(EncodeTx(t));
    var raw := HexDecode(hex.value);
    return Success(SignedTx(hex.value, DisplayTxid(c.sha256d(raw.value))));
  }
}
