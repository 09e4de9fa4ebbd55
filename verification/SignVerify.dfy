/** What the signer produces, the verifiers accept. */
module SignVerify {
  import opened Bytes
  import opened Hex
  import opened Outcome
  import opened ScriptCode
  import opened Sighash
  import opened Signer
  import opened Verify
  import opened Wallet
  import opened Wire

  lemma {:induction false} DecodeSerialized(t: Tx)
    ensures DecodeHexTx(HexEncode(EncodeTx(t))) == if FitsWindow(t) then Success(t) else Failure(DecodeFailed)
  {
    TrimHex(EncodeTx(t));
    HexRoundTrip(EncodeTx(t));
    TxRoundTrip(t, []);
    assert EncodeTx(t) + [] == EncodeTx(t);
  }

  /** One input and its secret, as assembled from one coin. */
  ghost predicate Owns(c: Crypto, u: Utxo, input: TxIn, secret: seq<Byte>) {
    && ParseDisplayTxid(u.txid) == Success(input.prevout.txid)
    && u.vout == input.prevout.vout
    && c.validSecret(secret)
    && HexDecode(Trim(u.scriptHex)) == Some(P2pkhScript(c.hash160(c.pubkeyOf(secret))))
  }

  lemma {:induction false} PreparedOwns(c: Crypto, seed: Seed, u: Utxo)
    requires Lawful(c) && ValidSeed(c, seed)
    requires PrepareInput(c, seed, u).Success?
    ensures var p := PrepareInput(c, seed, u).value; Owns(c, u, p.input, p.secret)
  {
    SigningKeyOwnsScript(c, seed, u.address, HexDecode(Trim(u.scriptHex)).value);
  }

  ghost predicate AllOwn(c: Crypto, utxos: seq<Utxo>, unsigned: Unsigned) {
    && |unsigned.tx.inputs| == |unsigned.secrets| == |utxos|
    && forall k :: 0 <= k < |utxos| ==> Owns(c, utxos[k], unsigned.tx.inputs[k], unsigned.secrets[k])
  }

  lemma {:induction false} AssembledOwn(c: Crypto, seed: Seed, utxos: seq<Utxo>, outputs: seq<Payment>,
                     changeAddress: string, fee: int, now: U32)
    requires MachineRange(utxos, outputs, fee) && Lawful(c) && ValidSeed(c, seed)
    requires Assembled(c, seed, utxos, outputs, changeAddress, fee, now).Success?
    ensures AllOwn(c, utxos, Assembled(c, seed, utxos, outputs, changeAddress, fee, now).value)
  {
    var step := PrepareAt(c, seed, utxos);
    var u := Assembled(c, seed, utxos, outputs, changeAddress, fee, now).value;
    CollectAll(|utxos|, step, 0);
    forall k | 0 <= k < |utxos|
      ensures Owns(c, utxos[k], u.tx.inputs[k], u.secrets[k])
    {
      assert step(k).Success?;
      PreparedOwns(c, seed, utxos[k]);
    }
  }

  /** The scriptSig made for input `k` of an owned transaction. */
  function GoodScriptSig(c: Crypto, tx: Tx, k: nat, secret: seq<Byte>): Script
    requires k < |tx.inputs|
  {
    var script := P2pkhScript(c.hash160(c.pubkeyOf(secret)));
    PushSlice(c.sign(secret, Digest(c.sha256d, tx, k, script, SIGHASH_ALL).value) + [1])
    + PushSlice(c.pubkeyOf(secret))
  }

  lemma {:induction false} ScriptSigGood(c: Crypto, u: Utxo, tx: Tx, k: nat, secret: seq<Byte>)
    requires Lawful(c) && k < |tx.inputs| && Owns(c, u, tx.inputs[k], secret)
    ensures ScriptSigFor(c, tx, k, u.scriptHex, secret) == Success(GoodScriptSig(c, tx, k, secret))
  {
  }

  function GoodScriptSigAt(c: Crypto, tx: Tx, secrets: seq<seq<Byte>>): nat -> Script {
    (k: nat) => if k < |tx.inputs| && k < |secrets| then GoodScriptSig(c, tx, k, secrets[k]) else []
  }

  lemma {:induction false} EveryScriptSigGood(c: Crypto, utxos: seq<Utxo>, u: Unsigned)
    requires Lawful(c) && AllOwn(c, utxos, u)
    ensures forall k: nat :: k < |utxos| ==>
      ScriptSigAt(c, u.tx, ScriptHexes(utxos), u.secrets)(k) == Success(GoodScriptSigAt(c, u.tx, u.secrets)(k))
  {
    forall k: nat | k < |utxos|
      ensures ScriptSigAt(c, u.tx, ScriptHexes(utxos), u.secrets)(k) == Success(GoodScriptSigAt(c, u.tx, u.secrets)(k))
    {
      ScriptSigGood(c, utxos[k], u.tx, k, u.secrets[k]);
    }
  }

  /** `t` is `tx` with the given scriptSigs. */
  ghost predicate Carries(tx: Tx, t: Tx, sigs: nat -> Script) {
    && t == tx.(inputs := t.inputs) && |t.inputs| == |tx.inputs|
    && forall k :: 0 <= k < |t.inputs| ==> t.inputs[k] == tx.inputs[k].(scriptSig := sigs(k))
  }

  lemma {:induction false} CollectedSigs(tx: Tx, step: nat -> Result<Script>, good: nat -> Script)
    requires forall k: nat :: k < |tx.inputs| ==> step(k) == Success(good(k))
    ensures var r := Collect(|tx.inputs|, step, 0); r.Success? && Carries(tx, WithScriptSigs(tx, r.value), good)
  {
    CollectAll(|tx.inputs|, step, 0);
  }

  /** Signing an assembled transaction cannot fail, and gives every input its own good scriptSig. */
  lemma {:induction false} SigningSucceeds(c: Crypto, utxos: seq<Utxo>, u: Unsigned)
    requires Lawful(c) && AllOwn(c, utxos, u)
    ensures var r := Signed(c, u.tx, ScriptHexes(utxos), u.secrets);
            r.Success? && Carries(u.tx, r.value, GoodScriptSigAt(c, u.tx, u.secrets))
  {
    EveryScriptSigGood(c, utxos, u);
    CollectedSigs(u.tx, ScriptSigAt(c, u.tx, ScriptHexes(utxos), u.secrets), GoodScriptSigAt(c, u.tx, u.secrets));
  }

  /** An input carrying a good scriptSig for this very transaction is accepted. */
  lemma {:induction false} GoodInputAccepted(c: Crypto, t: Tx, k: nat, u: Utxo, secret: seq<Byte>)
    requires Lawful(c) && k < |t.inputs| && Owns(c, u, t.inputs[k], secret)
    requires t.inputs[k].scriptSig == GoodScriptSig(c, t, k, secret)
    ensures CheckInput(c, t, k, u) == Success(())
  {
    var script := P2pkhScript(c.hash160(c.pubkeyOf(secret)));
    var key := c.pubkeyOf(secret);
    var digest := Digest(c.sha256d, t, k, script, SIGHASH_ALL).value;
    var der := c.sign(secret, digest);
    ScriptSigRoundTrip(der + [1], key);
    assert (der + [1])[..|der|] == der;
    assert P2pkhPubkeyHash(script).value == c.hash160(key);
  }

  /** The verifier recomputes each digest on the signed transaction and still accepts. */
  lemma {:induction false} SignedInputAccepted(c: Crypto, utxos: seq<Utxo>, u: Unsigned, t: Tx, k: nat)
    requires Lawful(c) && AllOwn(c, utxos, u) && k < |utxos|
    requires Signed(c, u.tx, ScriptHexes(utxos), u.secrets) == Success(t)
    ensures |t.inputs| == |utxos| && CheckInput(c, t, k, utxos[k]) == Success(())
  {
    SigningSucceeds(c, utxos, u);
    assert Owns(c, utxos[k], u.tx.inputs[k], u.secrets[k]);
    var script := P2pkhScript(c.hash160(c.pubkeyOf(u.secrets[k])));
    DigestIgnoresScriptSigs(c.sha256d, u.tx, t, k, script, SIGHASH_ALL);
    GoodInputAccepted(c, t, k, utxos[k], u.secrets[k]);
  }

  // ---------------------------------------------------------------- outputs

  predicate AllPositive(outputs: seq<Payment>) {
    forall k :: 0 <= k < |outputs| ==> outputs[k].sats > 0
  }

  lemma {:induction false} PaymentFound(c: Crypto, t: Tx, p: Payment, k: nat)
    requires k < |t.outputs| && PayTo(c, p) == Success(t.outputs[k])
    ensures CheckPayment(c, t, p).Success? <==> p.sats > 0
  {
  }

  lemma {:induction false} AssembledPays(c: Crypto, seed: Seed, utxos: seq<Utxo>, outputs: seq<Payment>,
                      changeAddress: string, fee: int, now: U32, t: Tx)
    requires MachineRange(utxos, outputs, fee)
    requires Assembled(c, seed, utxos, outputs, changeAddress, fee, now).Success?
    requires t.outputs == Assembled(c, seed, utxos, outputs, changeAddress, fee, now).value.tx.outputs
    ensures Collect(|outputs|, PaymentAt(c, t, outputs), 0).Success? <==> AllPositive(outputs)
  {
    PaidInOrder(c, seed, utxos, outputs, changeAddress, fee, now);
    PaymentsFound(c, t, outputs);
  }

  lemma {:induction false} PaidInOrder(c: Crypto, seed: Seed, utxos: seq<Utxo>, outputs: seq<Payment>,
                                       changeAddress: string, fee: int, now: U32)
    requires MachineRange(utxos, outputs, fee)
    requires Assembled(c, seed, utxos, outputs, changeAddress, fee, now).Success?
    ensures var paid := Assembled(c, seed, utxos, outputs, changeAddress, fee, now).value.tx.outputs;
            |outputs| <= |paid| && forall k :: 0 <= k < |outputs| ==> PayTo(c, outputs[k]) == Success(paid[k])
  {
    var pay := PayAt(c, outputs);
    CollectAll(|outputs|, pay, 0);
    var paid := Collect(|outputs|, pay, 0).value;
    forall k | 0 <= k < |outputs|
      ensures PayTo(c, outputs[k]) == Success(paid[k])
    {
      assert pay(k) == Success(paid[k]);
    }
  }

  lemma {:induction false} PaymentsFound(c: Crypto, t: Tx, outputs: seq<Payment>)
    requires |outputs| <= |t.outputs|
    requires forall k :: 0 <= k < |outputs| ==> PayTo(c, outputs[k]) == Success(t.outputs[k])
    ensures Collect(|outputs|, PaymentAt(c, t, outputs), 0).Success? <==> AllPositive(outputs)
  {
    var check := PaymentAt(c, t, outputs);
    forall k | 0 <= k < |outputs|
      ensures check(k).Success? <==> outputs[k].sats > 0
    {
      PaymentFound(c, t, outputs[k], k);
    }
    CollectAll(|outputs|, check, 0);
  }

  // ---------------------------------------------------------------- the two theorems

  /**
   * Whatever sign_transaction returns passes the local signature check, if and only if it fits
   * the decoder's window.
   */
  lemma {:induction false} SignedInputsAccepted(c: Crypto, seed: Seed, utxos: seq<Utxo>, outputs: seq<Payment>,
                             changeAddress: string, fee: int, now: U32)
    requires MachineRange(utxos, outputs, fee) && Lawful(c) && ValidSeed(c, seed)
    requires SpendTx(c, seed, utxos, outputs, changeAddress, fee, now).Success?
    ensures var t := SpendTx(c, seed, utxos, outputs, changeAddress, fee, now).value;
            InputsVerdict(c, HexEncode(EncodeTx(t)), utxos).Success? <==> FitsWindow(t)
  {
    var u := Assembled(c, seed, utxos, outputs, changeAddress, fee, now).value;
    var t := SpendTx(c, seed, utxos, outputs, changeAddress, fee, now).value;
    DecodeSerialized(t);
    AssembledOwn(c, seed, utxos, outputs, changeAddress, fee, now);
    SigningSucceeds(c, utxos, u);
    var check := InputAt(c, t, utxos);
    forall k | 0 <= k < |utxos|
      ensures check(k).Success?
    {
      SignedInputAccepted(c, utxos, u, t, k);
    }
    CollectAll(|utxos|, check, 0);
  }

  /**
   * It passes the output check exactly when it fits the window, spends and pays something, and every amount is
   * positive.
   */
  lemma {:induction false} SignedOutputsAccepted(c: Crypto, seed: Seed, utxos: seq<Utxo>, outputs: seq<Payment>,
                              changeAddress: string, fee: int, now: U32)
    requires MachineRange(utxos, outputs, fee) && Lawful(c) && ValidSeed(c, seed)
    requires SpendTx(c, seed, utxos, outputs, changeAddress, fee, now).Success?
    ensures var t := SpendTx(c, seed, utxos, outputs, changeAddress, fee, now).value;
            OutputsVerdict(c, HexEncode(EncodeTx(t)), outputs).Success? <==>
            FitsWindow(t) && utxos != [] && AllPositive(outputs) &&
            (outputs != [] || Change(utxos, outputs, fee) > DUST_CHANGE_SATS)
  {
    var u := Assembled(c, seed, utxos, outputs, changeAddress, fee, now).value;
    var t := SpendTx(c, seed, utxos, outputs, changeAddress, fee, now).value;
    DecodeSerialized(t);
    AssembledOwn(c, seed, utxos, outputs, changeAddress, fee, now);
    SigningSucceeds(c, utxos, u);
    AssembledPays(c, seed, utxos, outputs, changeAddress, fee, now, t);
  }

  // ---------------------------------------------------------------- what is signed

  /** An input names the coin's outpoint and is final. */
  ghost predicate InputFor(u: Utxo, input: TxIn) {
    && ParseDisplayTxid(u.txid) == Success(input.prevout.txid) && input.prevout.vout == u.vout
    && input.sequence == 0xFFFF_FFFF
  }

  /** A payment of now: version 1, no lock time, every coin named once, in order, and final. */
  ghost predicate SpendFields(t: Tx, utxos: seq<Utxo>, now: U32) {
    && t.version == 1 && t.nTime == now && t.lockTime == 0
    && |t.inputs| == |utxos| && forall k :: 0 <= k < |utxos| ==> InputFor(utxos[k], t.inputs[k])
  }

  ghost predicate PreparesFor(u: Utxo, r: Result<Prepared>) {
    r.Success? ==> InputFor(u, r.value.input)
  }

  lemma {:induction false} PreparedIsFor(c: Crypto, seed: Seed, u: Utxo)
    ensures PreparesFor(u, PrepareInput(c, seed, u))
  {
  }

  lemma {:induction false} CollectedInputs(utxos: seq<Utxo>, step: nat -> Result<Prepared>)
    requires Collect(|utxos|, step, 0).Success?
    requires forall k: nat :: k < |utxos| ==> PreparesFor(utxos[k], step(k))
    ensures forall k :: 0 <= k < |utxos| ==> InputFor(utxos[k], Collect(|utxos|, step, 0).value[k].input)
  {
    CollectAll(|utxos|, step, 0);
    var prepared := Collect(|utxos|, step, 0).value;
    forall k | 0 <= k < |utxos|
      ensures InputFor(utxos[k], prepared[k].input)
    {
      assert step(k) == Success(prepared[k]) && PreparesFor(utxos[k], step(k));
    }
  }

  lemma {:induction false} PreparedInputs(c: Crypto, seed: Seed, utxos: seq<Utxo>)
    requires Collect(|utxos|, PrepareAt(c, seed, utxos), 0).Success?
    ensures forall k :: 0 <= k < |utxos| ==>
      InputFor(utxos[k], Collect(|utxos|, PrepareAt(c, seed, utxos), 0).value[k].input)
  {
    forall k: nat | k < |utxos|
      ensures PreparesFor(utxos[k], PrepareAt(c, seed, utxos)(k))
    {
      PreparedIsFor(c, seed, utxos[k]);
    }
    CollectedInputs(utxos, PrepareAt(c, seed, utxos));
  }

  lemma {:induction false} AssembledFields(c: Crypto, seed: Seed, utxos: seq<Utxo>, outputs: seq<Payment>,
                                           changeAddress: string, fee: int, now: U32)
    requires MachineRange(utxos, outputs, fee)
    requires Assembled(c, seed, utxos, outputs, changeAddress, fee, now).Success?
    ensures SpendFields(Assembled(c, seed, utxos, outputs, changeAddress, fee, now).value.tx, utxos, now)
  {
    PreparedInputs(c, seed, utxos);
  }

  /** What signing returns has these fields, and every input spends its coin as the network demands. */
  lemma {:induction false} SignedFields(c: Crypto, seed: Seed, utxos: seq<Utxo>, outputs: seq<Payment>,
                                        changeAddress: string, fee: int, now: U32)
    requires MachineRange(utxos, outputs, fee) && Lawful(c) && ValidSeed(c, seed)
    requires SpendTx(c, seed, utxos, outputs, changeAddress, fee, now).Success?
    ensures var t := SpendTx(c, seed, utxos, outputs, changeAddress, fee, now).value;
            && SpendFields(t, utxos, now)
            && forall k :: 0 <= k < |t.inputs| ==> Spends(c, t, k, utxos[k])
  {
    var u := Assembled(c, seed, utxos, outputs, changeAddress, fee, now).value;
    var t := SpendTx(c, seed, utxos, outputs, changeAddress, fee, now).value;
    AssembledFields(c, seed, utxos, outputs, changeAddress, fee, now);
    AssembledOwn(c, seed, utxos, outputs, changeAddress, fee, now);
    SigningSucceeds(c, utxos, u);
    forall k | 0 <= k < |t.inputs|
      ensures Spends(c, t, k, utxos[k])
    {
      SignedInputAccepted(c, utxos, u, t, k);
      CheckInputIff(c, t, k, utxos[k]);
    }
  }

  /** An output for a payment: its amount, or nothing if that is negative, to the standard script of its address. */
  ghost predicate OutputFor(c: Crypto, p: Payment, o: TxOut) {
    && o.value == (if p.sats >= 0 then p.sats else 0)
    && c.decodeAddress(p.address).Some? && |c.decodeAddress(p.address).value| == 20
    && o.scriptPubKey == P2pkhScript(c.decodeAddress(p.address).value)
  }

  /** Everyone is paid, in order, and last, exactly above 546 sats, the change. */
  ghost predicate OutputsFor(c: Crypto, outputs: seq<Payment>, changeAddress: string, change: int, made: seq<TxOut>) {
    && |made| == |outputs| + (if change > 546 then 1 else 0)
    && (forall k :: 0 <= k < |outputs| ==> OutputFor(c, outputs[k], made[k]))
    && (change > 546 ==> Pays(c, made[|outputs|], changeAddress, change))
  }

  lemma {:induction false} AssembledOutputsFor(c: Crypto, seed: Seed, utxos: seq<Utxo>, outputs: seq<Payment>,
                                               changeAddress: string, fee: int, now: U32)
    requires MachineRange(utxos, outputs, fee)
    requires Assembled(c, seed, utxos, outputs, changeAddress, fee, now).Success?
    ensures OutputsFor(c, outputs, changeAddress, Total(utxos) - TotalPaid(outputs) - fee,
                       Assembled(c, seed, utxos, outputs, changeAddress, fee, now).value.tx.outputs)
  {
    var made := Assembled(c, seed, utxos, outputs, changeAddress, fee, now).value.tx.outputs;
    PaidInOrder(c, seed, utxos, outputs, changeAddress, fee, now);
    forall k | 0 <= k < |outputs|
      ensures OutputFor(c, outputs[k], made[k])
    {
      PaidAsAsked(c, outputs[k], made[k]);
    }
  }

  /** So does what is signed. */
  lemma {:induction false} SignedOutputs(c: Crypto, seed: Seed, utxos: seq<Utxo>, outputs: seq<Payment>,
                                         changeAddress: string, fee: int, now: U32)
    requires MachineRange(utxos, outputs, fee) && Lawful(c) && ValidSeed(c, seed)
    requires SpendTx(c, seed, utxos, outputs, changeAddress, fee, now).Success?
    ensures OutputsFor(c, outputs, changeAddress, Total(utxos) - TotalPaid(outputs) - fee,
                       SpendTx(c, seed, utxos, outputs, changeAddress, fee, now).value.outputs)
  {
    AssembledOwn(c, seed, utxos, outputs, changeAddress, fee, now);
    SigningSucceeds(c, utxos, Assembled(c, seed, utxos, outputs, changeAddress, fee, now).value);
    AssembledOutputsFor(c, seed, utxos, outputs, changeAddress, fee, now);
  }

  lemma {:induction false} PaidAsAsked(c: Crypto, p: Payment, o: TxOut)
    requires PayTo(c, p) == Success(o)
    ensures OutputFor(c, p, o)
  {
  }

  /** The text published is the transaction's bytes, and the id shown is their double hash. */
  lemma {:induction false} PublishedMeans(c: Crypto, t: Tx)
    ensures HexDecode(Published(c, t).hex) == Some(EncodeTx(t))
    ensures ParseDisplayTxid(Published(c, t).txid) == Success(c.sha256d(EncodeTx(t)))
  {
    HexRoundTrip(EncodeTx(t));
    TxidRoundTrip(c.sha256d(EncodeTx(t)));
  }
}
