/** Checks made on a signed transaction before it is broadcast. */
module Verify {
  import opened Bytes
  import opened Hex
  import opened Outcome
  import opened ScriptCode
  import opened Sighash
  import opened Wallet
  import opened Wire
  import opened WireLayout

  function DecodeHexTx(rawHex: string): Result<Tx> {
    match HexDecode(Trim(rawHex))
    case None => Failure(BadHex)
    case Some(bytes) =>
      match DecodeTx(bytes)
      case Err => Failure(DecodeFailed)
      case Ok(tx, _) => Success(tx)
  }

  // ---------------------------------------------------------------- outputs

  /** The verdict on one approved payment. */
  function CheckPayment(c: Crypto, tx: Tx, p: Payment): Result<()> {
    if p.sats <= 0 then Failure(BadAmount)
    else
      var script :- AddressToScript(c, p.address);
      if TxOut(p.sats, script) in tx.outputs then Success(()) else Failure(OutputNotPaid)
  }

  function PaymentAt(c: Crypto, tx: Tx, expected: seq<Payment>): nat -> Result<()> {
    (k: nat) => if k < |expected| then CheckPayment(c, tx, expected[k]) else Failure(IndexOutOfRange)
  }

  function OutputsVerdict(c: Crypto, rawHex: string, expected: seq<Payment>): Result<()> {
    var tx :- DecodeHexTx(rawHex);
    if tx.inputs == [] || tx.outputs == [] then Failure(EmptyTransaction)
    else
      var _ :- Collect(|expected|, PaymentAt(c, tx, expected), 0);
      Success(())
  }

  method VerifyPayment(c: Crypto, tx: Tx, p: Payment) returns (r: Result<()>)
    ensures r == CheckPayment(c, tx, p)
  {
    if p.sats <= 0 {
      return Failure(BadAmount);
    }
    var script :- AddressToScript(c, p.address);
    var matched, k := false, 0;
    while k < |tx.outputs| && !matched
      invariant 0 <= k <= |tx.outputs|
      invariant matched <==> TxOut(p.sats, script) in tx.outputs[..k]
    {
      matched := tx.outputs[k].scriptPubKey == script && tx.outputs[k].value == p.sats;
      k := k + 1;
    }
    assert k == |tx.outputs| ==> tx.outputs[..k] == tx.outputs;
    return if matched then Success(()) else Failure(OutputNotPaid);
  }

  method VerifySendOutputs(c: Crypto, rawHex: string, expected: seq<Payment>) returns (r: Result<()>)
    ensures r == OutputsVerdict(c, rawHex, expected)
  {
    var tx :- DecodeHexTx(rawHex);
    if tx.inputs == [] || tx.outputs == [] {
      return Failure(EmptyTransaction);
    }
    ghost var n, step, done: seq<()> := |expected|, PaymentAt(c, tx, expected), [];
    CollectStart(n, step);
    for i := 0 to |expected|
      invariant Collect(n, step, 0) == After(done, Collect(n, step, i))
    {
      CollectStep(n, step, i, done);
      var _ :- VerifyPayment(c, tx, expected[i]);
      done := done + [()];
    }
    CollectEnd(n, step, done);
    return Success(());
  }

  // ---------------------------------------------------------------- inputs

  function CheckInput(c: Crypto, tx: Tx, i: nat, u: Utxo): Result<()>
    requires i < |tx.inputs|
  {
    var txid :- ParseDisplayTxid(u.txid);
    if tx.inputs[i].prevout != OutPoint(txid, u.vout) then Failure(WrongOutpoint)
    else
      match HexDecode(Trim(u.scriptHex))
      case None => Failure(BadHex)
      case Some(script) =>
        match P2pkhPubkeyHash(script)
        case None => Failure(NotP2pkh)
        case Some(keyHash) =>
          var (sig, key) :- SigAndKey(tx.inputs[i].scriptSig);
          if sig == [] || sig[|sig| - 1] as int != SIGHASH_ALL then Failure(BadSignature)
          else if !c.validPubkey(key) || c.hash160(key) != keyHash then Failure(BadSignature)
          else
            var digest :- Digest(c.sha256d, tx, i, script, SIGHASH_ALL);
            if c.verify(digest, sig[..|sig| - 1], key) then Success(()) else Failure(BadSignature)
  }

  function InputAt(c: Crypto, tx: Tx, utxos: seq<Utxo>): nat -> Result<()> {
    (k: nat) => if k < |utxos| && k < |tx.inputs| then CheckInput(c, tx, k, utxos[k]) else Failure(IndexOutOfRange)
  }

  function InputsVerdict(c: Crypto, rawHex: string, utxos: seq<Utxo>): Result<()> {
    var tx :- DecodeHexTx(rawHex);
    if |tx.inputs| != |utxos| then Failure(CountMismatch)
    else
      var _ :- Collect(|utxos|, InputAt(c, tx, utxos), 0);
      Success(())
  }

  method VerifyInput(c: Crypto, tx: Tx, i: nat, u: Utxo) returns (r: Result<()>)
    requires i < |tx.inputs|
    ensures r == CheckInput(c, tx, i, u)
  {
    var expectedTxid :- ParseDisplayTxid(u.txid);
    if tx.inputs[i].prevout.txid != expectedTxid {
      return Failure(WrongOutpoint);
    }
    if tx.inputs[i].prevout.vout != u.vout {
      return Failure(WrongOutpoint);
    }
    var script := HexDecode(Trim(u.scriptHex));
    if script.None? {
      return Failure(BadHex);
    }
    var keyHash := P2pkhPubkeyHash(script.value);
    if keyHash.None? {
      return Failure(NotP2pkh);
    }
    var pushes :- ParseP2pkhScriptSig(tx.inputs[i].scriptSig);
    var (sig, key) := pushes;
    if sig == [] || sig[|sig| - 1] as int != SIGHASH_ALL {
      return Failure(BadSignature);
    }
    if !c.validPubkey(key) || c.hash160(key) != keyHash.value {
      return Failure(BadSignature);
    }
    var digest :- VeriumSignatureHash(c.sha256d, tx, i, script.value, SIGHASH_ALL);
    return if c.verify(digest, sig[..|sig| - 1], key) then Success(()) else Failure(BadSignature);
  }

  method VerifySignedP2pkhInputs(c: Crypto, rawHex: string, utxos: seq<Utxo>) returns (r: Result<()>)
    ensures r == InputsVerdict(c, rawHex, utxos)
  {
    var tx :- DecodeHexTx(rawHex);
    if |tx.inputs| != |utxos| {
      return Failure(CountMismatch);
    }
    ghost var n, step, done: seq<()> := |utxos|, InputAt(c, tx, utxos), [];
    CollectStart(n, step);
    for i := 0 to |utxos|
      invariant Collect(n, step, 0) == After(done, Collect(n, step, i))
    {
      CollectStep(n, step, i, done);
      var _ :- VerifyInput(c, tx, i, utxos[i]);
      done := done + [()];
    }
    CollectEnd(n, step, done);
    return Success(());
  }

  // ---------------------------------------------------------------- what the verdicts mean

  /** Hex text decodes to the transaction whose bytes it begins with, if it fits the window, and to no other. */
  lemma {:induction false} DecodeHexIff(rawHex: string, t: Tx)
    ensures DecodeHexTx(rawHex) == Success(t) <==>
      FitsWindow(t) && exists rest: seq<Byte> :: HexDecode(Trim(rawHex)) == Some(EncodeTx(t) + rest)
  {
    if DecodeHexTx(rawHex) == Success(t) {
      var bytes := HexDecode(Trim(rawHex)).value;
      TxCanonical(bytes);
      assert bytes == EncodeTx(t) + DecodeTx(bytes).rest;
    }
    if rest: seq<Byte> :| HexDecode(Trim(rawHex)) == Some(EncodeTx(t) + rest) {
      TxRoundTrip(t, rest);
    }
  }

  /** The output has this amount, greater than zero, and the standard script of the address. */
  predicate Pays(c: Crypto, o: TxOut, address: string, sats: int) {
    && sats > 0 && o.value == sats
    && c.decodeAddress(address).Some? && |c.decodeAddress(address).value| == 20
    && o.scriptPubKey == P2pkhScript(c.decodeAddress(address).value)
  }

  ghost predicate Paid(c: Crypto, t: Tx, p: Payment) {
    exists j :: 0 <= j < |t.outputs| && Pays(c, t.outputs[j], p.address, p.sats)
  }

  lemma {:induction false} CheckPaymentIff(c: Crypto, t: Tx, p: Payment)
    ensures CheckPayment(c, t, p).Success? <==> Paid(c, t, p)
  {
    if CheckPayment(c, t, p).Success? {
      var script := AddressToScript(c, p.address).value;
      var j :| 0 <= j < |t.outputs| && t.outputs[j] == TxOut(p.sats, script);
      assert Pays(c, t.outputs[j], p.address, p.sats);
    }
  }

  /** The output check accepts exactly a transaction that spends something and pays everyone. */
  lemma {:induction false} OutputsVerdictIff(c: Crypto, rawHex: string, expected: seq<Payment>)
    ensures OutputsVerdict(c, rawHex, expected).Success? <==>
      && DecodeHexTx(rawHex).Success?
      && var t := DecodeHexTx(rawHex).value;
      t.inputs != [] && t.outputs != [] && forall k :: 0 <= k < |expected| ==> Paid(c, t, expected[k])
  {
    if DecodeHexTx(rawHex).Success? {
      var t := DecodeHexTx(rawHex).value;
      var step := PaymentAt(c, t, expected);
      CollectAll(|expected|, step, 0);
      forall k | 0 <= k < |expected|
        ensures step(k).Success? <==> Paid(c, t, expected[k])
      {
        CheckPaymentIff(c, t, expected[k]);
      }
    }
  }

  /** The signature holds for the bytes that a signature of type ALL for this input covers. */
  ghost predicate Covered(c: Crypto, t: Tx, i: nat, code: Script, sig: seq<Byte>, key: seq<Byte>)
    requires i < |t.inputs|
  {
    exists p: seq<Byte>, copy: Tx ::
      SignedBytes(p, copy, 1) && CopyFor(t, i, code, 1, copy) && c.verify(c.sha256d(p), sig, key)
  }

  /**
   * An input spends a coin as the network demands it: it names the coin's outpoint, the coin's script is the
   * standard one of the hash of the key that the input shows, and the signature shown, which carries the type
   * ALL, holds under that key.
   */
  ghost predicate Spends(c: Crypto, t: Tx, i: nat, u: Utxo)
    requires i < |t.inputs|
  {
    && ParseDisplayTxid(u.txid) == Success(t.inputs[i].prevout.txid) && u.vout == t.inputs[i].prevout.vout
    && SigAndKey(t.inputs[i].scriptSig).Success?
    && var (shown, key) := SigAndKey(t.inputs[i].scriptSig).value;
    && HexDecode(Trim(u.scriptHex)) == Some(P2pkhScript(c.hash160(key))) && c.validPubkey(key)
    && |shown| >= 1 && shown[|shown| - 1] == 1
    && Covered(c, t, i, P2pkhScript(c.hash160(key)), shown[..|shown| - 1], key)
  }

  lemma {:induction false} CoveredIff(c: Crypto, t: Tx, i: nat, hash: KeyHash, sig: seq<Byte>, key: seq<Byte>)
    requires i < |t.inputs|
    ensures Covered(c, t, i, P2pkhScript(hash), sig, key) <==>
      c.verify(Digest(c.sha256d, t, i, P2pkhScript(hash), SIGHASH_ALL).value, sig, key)
  {
    var code := P2pkhScript(hash);
    StrippedP2pkh(hash);
    HashTypes();
    var q := PreimageMeans(t, i, code, 1);
    if Covered(c, t, i, code, sig, key) {
      var p: seq<Byte>, copy: Tx :|
        SignedBytes(p, copy, 1) && CopyFor(t, i, code, 1, copy) && c.verify(c.sha256d(p), sig, key);
      PreimageOnly(t, i, code, 1, p, copy);
    }
  }

  lemma {:induction false} ScriptOfHash(script: seq<Byte>, hash: KeyHash)
    ensures P2pkhPubkeyHash(script) == Some(hash) <==> script == P2pkhScript(hash)
  {
    if script == P2pkhScript(hash) {
      assert script[3..23] == hash;
    }
  }

  /** What the check looks at, in the end. */
  ghost predicate Checks(c: Crypto, t: Tx, i: nat, u: Utxo, script: seq<Byte>, shown: seq<Byte>, key: seq<Byte>)
    requires i < |t.inputs|
  {
    && ParseDisplayTxid(u.txid) == Success(t.inputs[i].prevout.txid) && u.vout == t.inputs[i].prevout.vout
    && P2pkhPubkeyHash(script) == Some(c.hash160(key)) && c.validPubkey(key)
    && |shown| >= 1 && shown[|shown| - 1] == 1
    && c.verify(Digest(c.sha256d, t, i, script, SIGHASH_ALL).value, shown[..|shown| - 1], key)
  }

  lemma {:induction false} CheckInputParts(c: Crypto, t: Tx, i: nat, u: Utxo)
    requires i < |t.inputs|
    ensures CheckInput(c, t, i, u).Success? <==>
      && SigAndKey(t.inputs[i].scriptSig).Success? && HexDecode(Trim(u.scriptHex)).Some?
      && Checks(c, t, i, u, HexDecode(Trim(u.scriptHex)).value,
                SigAndKey(t.inputs[i].scriptSig).value.0, SigAndKey(t.inputs[i].scriptSig).value.1)
  {
  }

  lemma {:induction false} CheckInputIff(c: Crypto, t: Tx, i: nat, u: Utxo)
    requires i < |t.inputs|
    ensures CheckInput(c, t, i, u).Success? <==> Spends(c, t, i, u)
  {
    CheckInputParts(c, t, i, u);
    if SigAndKey(t.inputs[i].scriptSig).Success? && HexDecode(Trim(u.scriptHex)).Some? {
      var (shown, key) := SigAndKey(t.inputs[i].scriptSig).value;
      ScriptOfHash(HexDecode(Trim(u.scriptHex)).value, c.hash160(key));
      if |shown| >= 1 {
        CoveredIff(c, t, i, c.hash160(key), shown[..|shown| - 1], key);
      }
    }
  }

  /** The signature check accepts exactly a transaction whose every input spends its coin as the network demands. */
  lemma {:induction false} InputsVerdictIff(c: Crypto, rawHex: string, utxos: seq<Utxo>)
    ensures InputsVerdict(c, rawHex, utxos).Success? <==>
      && DecodeHexTx(rawHex).Success?
      && var t := DecodeHexTx(rawHex).value;
      |t.inputs| == |utxos| && forall k :: 0 <= k < |utxos| ==> Spends(c, t, k, utxos[k])
  {
    if DecodeHexTx(rawHex).Success? && |DecodeHexTx(rawHex).value.inputs| == |utxos| {
      var t := DecodeHexTx(rawHex).value;
      var step := InputAt(c, t, utxos);
      CollectAll(|utxos|, step, 0);
      forall k | 0 <= k < |utxos|
        ensures step(k).Success? <==> Spends(c, t, k, utxos[k])
      {
        CheckInputIff(c, t, k, utxos[k]);
      }
    }
  }
}
