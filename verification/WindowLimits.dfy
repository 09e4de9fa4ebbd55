/** How many coins and outputs a spend may have so that the wallet accepts what it signed. */
module WindowLimits {
  import opened Bytes
  import opened Hex
  import opened Outcome
  import opened ScriptCode
  import opened Signer
  import opened SignVerify
  import opened TxSize
  import opened Verify
  import opened Wallet
  import opened Wire

  /** Everything that signing is given. */
  datatype Signing = Signing(
    crypto: Crypto, seed: Seed, utxos: seq<Utxo>, outputs: seq<Payment>, changeAddress: string, fee: int, now: U32)

  ghost predicate InRange(s: Signing) {
    MachineRange(s.utxos, s.outputs, s.fee)
  }

  ghost function SpendOf(s: Signing): Result<Tx>
    requires InRange(s)
  {
    SpendTx(s.crypto, s.seed, s.utxos, s.outputs, s.changeAddress, s.fee, s.now)
  }

  /** Signing succeeds, with n inputs and m outputs. */
  ghost predicate Signs(s: Signing, n: nat, m: nat) {
    && Lawful(s.crypto) && ValidSeed(s.crypto, s.seed) && InRange(s)
    && SpendOf(s).Success? && |SpendOf(s).value.inputs| == n && |SpendOf(s).value.outputs| == m
  }

  /** The wallet's own signature check accepts the hex that signing returned. */
  ghost predicate Accepted(s: Signing)
    requires InRange(s) && SpendOf(s).Success?
  {
    InputsVerdict(s.crypto, HexEncode(EncodeTx(SpendOf(s).value)), s.utxos).Success?
  }

  /** Whatever the cryptography, the coins, the payments and the lengths of the signatures. */
  ghost predicate AlwaysAccepted(n: nat, m: nat) {
    forall s: Signing :: Signs(s, n, m) ==> Accepted(s)
  }

  // ---------------------------------------------------------------- the longest spend

  ghost predicate SignsLongest(s: Signing, n: nat, m: nat) {
    Signs(s, n, m) && SpendShape(SpendOf(s).value) && Slack(SpendOf(s).value.inputs) == 0
  }

  ghost predicate LongestSignatures(c: Crypto) {
    forall sk: seq<Byte>, d: Hash256 :: |c.sign(sk, d)| == 71
  }

  function Zeros(n: nat): seq<Byte> {
    seq(n, _ => 0)
  }

  /** A lawful cryptography with one key and the longest signatures. */
  function OneKey(): Crypto {
    Crypto(_ => Zeros(32), _ => Zeros(20), _ => true, _ => Zeros(33), _ => true, (_, _) => Zeros(71), (_, _, _) => true,
           (h: KeyHash) => HexEncode(h), s => HexDecode(s))
  }

  function OneSeed(): Seed {
    Seed(false, (_, _) => [])
  }

  /** A coin worth nothing, of the first key. */
  function FirstCoin(c: Crypto, seed: Seed): Utxo {
    Utxo(HexEncode(Zeros(32)), 0, 0, 1, AddressAt(c, seed, External, 0), HexEncode(ScriptAt(c, seed, External, 0)))
  }

  function NoPayment(c: Crypto, seed: Seed): Payment {
    Payment(AddressAt(c, seed, External, 0), 0)
  }

  /** Copies of a coin spent for copies of a payment. */
  function Copies(c: Crypto, seed: Seed, coin: Utxo, payment: Payment, n: nat, m: nat): Signing {
    Signing(c, seed, seq(n, _ => coin), seq(m, _ => payment), "", 0, 0)
  }

  function Worst(n: nat, m: nat): Signing {
    Copies(OneKey(), OneSeed(), FirstCoin(OneKey(), OneSeed()), NoPayment(OneKey(), OneSeed()), n, m)
  }

  lemma {:induction false} OneKeyIsLawful()
    ensures Lawful(OneKey()) && ValidSeed(OneKey(), OneSeed()) && LongestSignatures(OneKey())
  {
    forall h: KeyHash
      ensures HexDecode(HexEncode(h)) == Some(h)
    {
      HexRoundTrip(h);
    }
  }

  lemma {:induction false} WorthNothing(utxos: seq<Utxo>)
    requires forall k :: 0 <= k < |utxos| ==> utxos[k].valueSats == 0
    ensures Total(utxos) == 0
  {
    if utxos != [] {
      WorthNothing(utxos[1..]);
    }
  }

  lemma {:induction false} PaysNothing(outputs: seq<Payment>)
    requires forall k :: 0 <= k < |outputs| ==> outputs[k].sats == 0
    ensures TotalPaid(outputs) == 0
  {
    if outputs != [] {
      PaysNothing(outputs[1..]);
    }
  }

  lemma {:induction false} FirstCoinPrepared(c: Crypto, seed: Seed)
    requires Lawful(c) && AddressAt(c, seed, External, 0) != ""
    ensures PrepareInput(c, seed, FirstCoin(c, seed)).Success? && PayTo(c, NoPayment(c, seed)).Success?
  {
    var script := ScriptAt(c, seed, External, 0);
    TrimHex(script);
    HexRoundTrip(script);
    HexRoundTrip(Zeros(32));
    FirstFound(c, seed, AddressAt(c, seed, External, 0), script, 0);
  }

  lemma {:induction false} FirstFound(c: Crypto, seed: Seed, address: string, script: seq<Byte>, index: nat)
    requires address != "" && index < GAP_SCAN_MAX_INDEX
    requires CheckKey(c, seed, address, script, External, index) == Success(true)
    ensures SearchChain(c, seed, address, script, External, index) == Success(Some(seed.secretAt(External, index)))
  {
  }

  /** A worthless coin can pay nothing any number of times. */
  lemma {:induction false} CopiesAssemble(c: Crypto, seed: Seed, coin: Utxo, payment: Payment, n: nat, m: nat)
    requires n < TWO_63 && m < TWO_63 && coin.valueSats == 0 && payment.sats == 0
    requires PrepareInput(c, seed, coin).Success? && PayTo(c, payment).Success?
    ensures var s := Copies(c, seed, coin, payment, n, m);
            && InRange(s)
            && var r := Assembled(c, seed, s.utxos, s.outputs, "", 0, 0);
            r.Success? && |r.value.tx.inputs| == n && |r.value.tx.outputs| == m
  {
    var s := Copies(c, seed, coin, payment, n, m);
    WorthNothing(s.utxos);
    PaysNothing(s.outputs);
    CollectAll(n, PrepareAt(c, seed, s.utxos), 0);
    CollectAll(m, PayAt(c, s.outputs), 0);
  }

  /** Signed with the longest signatures, they use all the room that the estimate has. */
  lemma {:induction false} CopiesSign(c: Crypto, seed: Seed, coin: Utxo, payment: Payment, n: nat, m: nat)
    requires n < TWO_63 && m < TWO_63 && coin.valueSats == 0 && payment.sats == 0
    requires PrepareInput(c, seed, coin).Success? && PayTo(c, payment).Success?
    requires Lawful(c) && ValidSeed(c, seed) && LongestSignatures(c)
    ensures SignsLongest(Copies(c, seed, coin, payment, n, m), n, m)
  {
    var s := Copies(c, seed, coin, payment, n, m);
    CopiesAssemble(c, seed, coin, payment, n, m);
    var u := Assembled(c, seed, s.utxos, s.outputs, "", 0, 0).value;
    AssembledOwn(c, seed, s.utxos, s.outputs, "", 0, 0);
    SigningSucceeds(c, s.utxos, u);
    SpendFacts(c, seed, s.utxos, s.outputs, "", 0, 0);
    var t := SpendOf(s).value;
    forall k | 0 <= k < n
      ensures |t.inputs[k].scriptSig| == MAX_SCRIPT_SIG
    {
      assert t.inputs[k].scriptSig == GoodScriptSig(c, u.tx, k, u.secrets[k]);
    }
    FullSlack(t.inputs);
  }

  /** Every count of inputs and outputs is reached by a signing whose scriptSigs are all as long as they can be. */
  lemma {:induction false} LongestIsSigned(n: nat, m: nat)
    requires n < TWO_63 && m < TWO_63
    ensures SignsLongest(Worst(n, m), n, m)
  {
    OneKeyIsLawful();
    var c, seed := OneKey(), OneSeed();
    FirstCoinPrepared(c, seed);
    CopiesSign(c, seed, FirstCoin(c, seed), NoPayment(c, seed), n, m);
  }

  // ---------------------------------------------------------------- the limits

  lemma {:induction false} AcceptedIff(s: Signing, n: nat, m: nat)
    requires Signs(s, n, m)
    ensures SpendShape(SpendOf(s).value) && (Accepted(s) <==> FitsWindow(SpendOf(s).value))
  {
    SpendFacts(s.crypto, s.seed, s.utxos, s.outputs, s.changeAddress, s.fee, s.now);
    SignedInputsAccepted(s.crypto, s.seed, s.utxos, s.outputs, s.changeAddress, s.fee, s.now);
  }

  /** The counts alone guarantee that the wallet accepts what it signed, exactly up to these limits. */
  lemma {:induction false} AlwaysAcceptedIff(n: nat, m: nat)
    requires n < TWO_63 && m < TWO_63
    ensures AlwaysAccepted(n, m) <==> n <= MAX_WINDOW_INPUTS && m <= MAX_WINDOW_OUTPUTS
  {
    if n <= MAX_WINDOW_INPUTS && m <= MAX_WINDOW_OUTPUTS {
      AlwaysFitsIff(n, m);
      forall s: Signing | Signs(s, n, m)
        ensures Accepted(s)
      {
        AcceptedIff(s, n, m);
      }
    } else {
      LongestIsSigned(n, m);
      AcceptedIff(Worst(n, m), n, m);
      VectorSizes(SpendOf(Worst(n, m)).value);
    }
  }
}
