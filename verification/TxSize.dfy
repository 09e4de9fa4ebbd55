/** The size estimate against the bytes that are really serialized, and what the fee pays for. */
module TxSize {
  import opened Bytes
  import opened FeePlan
  import opened Outcome
  import opened ScriptCode
  import opened Signer
  import opened SignVerify
  import opened Wallet
  import opened Wire

  /** Longest scriptSig of a low-S signature and a compressed key. */
  const MAX_SCRIPT_SIG: nat := 107
  const P2PKH_SIZE: nat := 25

  ghost predicate SpendShape(t: Tx) {
    && (forall k :: 0 <= k < |t.inputs| ==> |t.inputs[k].scriptSig| <= MAX_SCRIPT_SIG)
    && (forall k :: 0 <= k < |t.outputs| ==> |t.outputs[k].scriptPubKey| == P2PKH_SIZE)
  }

  /** Bytes the two counts take beyond the single byte the estimate has for each. */
  function LongCountsOf(n: U64, m: U64): nat {
    |CompactSize(n)| - 1 + |CompactSize(m)| - 1
  }

  function LongCounts(t: Tx): nat {
    LongCountsOf(|t.inputs|, |t.outputs|)
  }

  /** Bytes by which the scriptSigs stay below the longest ones that the estimate has room for. */
  function Slack(inputs: seq<TxIn>): int {
    if inputs == [] then 0 else MAX_SCRIPT_SIG - |inputs[0].scriptSig| + Slack(inputs[1..])
  }

  lemma {:induction false} InputItemsSize(xs: seq<TxIn>)
    requires forall k :: 0 <= k < |xs| ==> |xs[k].scriptSig| <= MAX_SCRIPT_SIG
    ensures |EncodeItems(EncodeTxIn, xs)| == 148 * |xs| - Slack(xs) && Slack(xs) >= 0
  {
    if xs != [] {
      InputItemsSize(xs[1..]);
      assert |EncodeTxIn(xs[0])| == 41 + |xs[0].scriptSig|;
    }
  }

  lemma {:induction false} OutputItemsSize(xs: seq<TxOut>)
    requires forall k :: 0 <= k < |xs| ==> |xs[k].scriptPubKey| == P2PKH_SIZE
    ensures |EncodeItems(EncodeTxOut, xs)| == 34 * |xs|
  {
    if xs != [] {
      OutputItemsSize(xs[1..]);
      assert |EncodeTxOut(xs[0])| == 34;
    }
  }

  /** The two vectors, exactly. */
  lemma {:induction false} VectorSizes(t: Tx)
    requires SpendShape(t)
    ensures |EncodeInputs(t.inputs)| == |CompactSize(|t.inputs|)| + 148 * |t.inputs| - Slack(t.inputs)
    ensures |EncodeOutputs(t.outputs)| == |CompactSize(|t.outputs|)| + 34 * |t.outputs|
    ensures Slack(t.inputs) >= 0
  {
    InputItemsSize(t.inputs);
    OutputItemsSize(t.outputs);
    assert |EncodeInputs(t.inputs)| == |CompactSize(|t.inputs|)| + |EncodeItems(EncodeTxIn, t.inputs)|;
    assert |EncodeOutputs(t.outputs)| == |CompactSize(|t.outputs|)| + |EncodeItems(EncodeTxOut, t.outputs)|;
  }

  /** The serialized size, exactly: the estimate, plus the long counts, less what the scriptSigs leave unused. */
  lemma {:induction false} ExactSize(t: Tx)
    requires SpendShape(t)
    ensures |EncodeTx(t)| == EstimateTxSize(|t.inputs|, |t.outputs|) + LongCounts(t) - Slack(t.inputs)
    ensures Slack(t.inputs) >= 0
  {
    VectorSizes(t);
    assert |EncodeTx(t)| == 12 + |EncodeInputs(t.inputs)| + |EncodeOutputs(t.outputs)|;
  }

  /** The estimate is enough for a spend exactly when its signatures leave room for the long counts. */
  lemma {:induction false} EstimateEnoughIff(t: Tx)
    requires SpendShape(t)
    ensures |EncodeTx(t)| <= EstimateTxSize(|t.inputs|, |t.outputs|) <==> LongCounts(t) <= Slack(t.inputs)
  {
    ExactSize(t);
  }

  /** Whatever the lengths of its signatures, a spend with these counts is within the estimate. */
  ghost predicate AlwaysEnough(n: nat, m: nat) {
    forall t: Tx :: SpendShape(t) && |t.inputs| == n && |t.outputs| == m ==> |EncodeTx(t)| <= EstimateTxSize(n, m)
  }

  lemma {:induction false} FullSlack(inputs: seq<TxIn>)
    requires forall k :: 0 <= k < |inputs| ==> |inputs[k].scriptSig| == MAX_SCRIPT_SIG
    ensures Slack(inputs) == 0
  {
    if inputs != [] {
      FullSlack(inputs[1..]);
    }
  }

  /** Before the signatures are known, the counts guarantee it exactly below 253 inputs and 253 outputs. */
  lemma {:induction false} AlwaysEnoughIff(n: U64, m: U64)
    ensures AlwaysEnough(n, m) <==> n < 253 && m < 253
  {
    if n < 253 && m < 253 {
      forall t: Tx | SpendShape(t) && |t.inputs| == n && |t.outputs| == m
        ensures |EncodeTx(t)| <= EstimateTxSize(n, m)
      {
        ExactSize(t);
      }
    } else {
      LongestIsWorst(n, m);
    }
  }

  /** A spend whose every scriptSig is as long as it can be. */
  function Longest(n: U64, m: U64): Tx {
    var input := TxIn(OutPoint(seq(32, _ => 0), 0), seq(MAX_SCRIPT_SIG, _ => 0), 0);
    var output := TxOut(0, seq(P2PKH_SIZE, _ => 0));
    Tx(1, 0, seq(n, _ => input), seq(m, _ => output), 0)
  }

  lemma {:induction false} LongestIsWorst(n: U64, m: U64)
    ensures var t := Longest(n, m);
            && SpendShape(t) && |t.inputs| == n && |t.outputs| == m && Slack(t.inputs) == 0
            && |EncodeTx(t)| == EstimateTxSize(n, m) + LongCountsOf(n, m)
  {
    FullSlack(Longest(n, m).inputs);
    ExactSize(Longest(n, m));
  }

  // ---------------------------------------------------------------- the decoder's window

  const MAX_WINDOW_INPUTS: nat := 27_027
  const MAX_WINDOW_OUTPUTS: nat := 117_646

  /** Whatever the lengths of its signatures, a spend with these counts can be decoded again. */
  ghost predicate AlwaysFits(n: nat, m: nat) {
    forall t: Tx :: SpendShape(t) && |t.inputs| == n && |t.outputs| == m ==> FitsWindow(t)
  }

  /** The counts guarantee that exactly up to 27,027 inputs and 117,646 outputs. */
  lemma {:induction false} AlwaysFitsIff(n: U64, m: U64)
    ensures AlwaysFits(n, m) <==> n <= MAX_WINDOW_INPUTS && m <= MAX_WINDOW_OUTPUTS
  {
    if n <= MAX_WINDOW_INPUTS && m <= MAX_WINDOW_OUTPUTS {
      forall t: Tx | SpendShape(t) && |t.inputs| == n && |t.outputs| == m
        ensures FitsWindow(t)
      {
        VectorSizes(t);
      }
    } else {
      LongestIsWorst(n, m);
      VectorSizes(Longest(n, m));
    }
  }

  // ---------------------------------------------------------------- the signed transaction

  lemma {:induction false} PaymentScriptSize(c: Crypto, address: string)
    ensures AddressToScript(c, address).Success? ==> |AddressToScript(c, address).value| == P2PKH_SIZE
  {
  }

  lemma {:induction false} AssembledOutputs(c: Crypto, seed: Seed, utxos: seq<Utxo>, outputs: seq<Payment>,
                                            changeAddress: string, fee: int, now: U32)
    requires MachineRange(utxos, outputs, fee)
    requires Assembled(c, seed, utxos, outputs, changeAddress, fee, now).Success?
    ensures var t := Assembled(c, seed, utxos, outputs, changeAddress, fee, now).value.tx;
            && |t.outputs| == OutputCount(Total(utxos), TotalPaid(outputs), fee, |outputs|)
            && (forall k :: 0 <= k < |t.outputs| ==> |t.outputs[k].scriptPubKey| == P2PKH_SIZE)
            && (forall k :: 0 <= k < |outputs| ==> PayTo(c, outputs[k]) == Success(t.outputs[k]))
            && (|t.outputs| > |outputs| ==> t.outputs[|outputs|].value == Change(utxos, outputs, fee))
  {
    var t := Assembled(c, seed, utxos, outputs, changeAddress, fee, now).value.tx;
    var pay := PayAt(c, outputs);
    CollectAll(|outputs|, pay, 0);
    var paid := Collect(|outputs|, pay, 0).value;
    PaymentScriptSize(c, changeAddress);
    forall k | 0 <= k < |outputs|
      ensures PayTo(c, outputs[k]) == Success(t.outputs[k]) && |t.outputs[k].scriptPubKey| == P2PKH_SIZE
    {
      assert pay(k) == Success(paid[k]) && t.outputs[k] == paid[k];
      PaymentScriptSize(c, outputs[k].address);
    }
  }

  lemma {:induction false} ChangeScript(c: Crypto, seed: Seed, utxos: seq<Utxo>, outputs: seq<Payment>,
                                        changeAddress: string, fee: int, now: U32)
    requires MachineRange(utxos, outputs, fee)
    requires Assembled(c, seed, utxos, outputs, changeAddress, fee, now).Success?
    ensures var t := Assembled(c, seed, utxos, outputs, changeAddress, fee, now).value.tx;
            |t.outputs| > |outputs| ==> AddressToScript(c, changeAddress) == Success(t.outputs[|outputs|].scriptPubKey)
  {
  }

  lemma {:induction false} GoodScriptSigSize(c: Crypto, tx: Tx, k: nat, secret: seq<Byte>)
    requires Lawful(c) && c.validSecret(secret) && k < |tx.inputs|
    ensures |GoodScriptSig(c, tx, k, secret)| <= MAX_SCRIPT_SIG
  {
  }

  /** What a successful signing produces: shape, inputs and outputs. */
  lemma {:induction false} SpendFacts(c: Crypto, seed: Seed, utxos: seq<Utxo>, outputs: seq<Payment>,
                                      changeAddress: string, fee: int, now: U32)
    requires MachineRange(utxos, outputs, fee) && Lawful(c) && ValidSeed(c, seed)
    requires SpendTx(c, seed, utxos, outputs, changeAddress, fee, now).Success?
    ensures var t := SpendTx(c, seed, utxos, outputs, changeAddress, fee, now).value;
            && SpendShape(t) && |t.inputs| == |utxos|
            && t.outputs == Assembled(c, seed, utxos, outputs, changeAddress, fee, now).value.tx.outputs
            && Change(utxos, outputs, fee) >= 0
  {
    var u := Assembled(c, seed, utxos, outputs, changeAddress, fee, now).value;
    var t := SpendTx(c, seed, utxos, outputs, changeAddress, fee, now).value;
    AssembledOwn(c, seed, utxos, outputs, changeAddress, fee, now);
    SigningSucceeds(c, utxos, u);
    AssembledOutputs(c, seed, utxos, outputs, changeAddress, fee, now);
    forall k | 0 <= k < |t.inputs|
      ensures |t.inputs[k].scriptSig| <= MAX_SCRIPT_SIG
    {
      assert Owns(c, utxos[k], u.tx.inputs[k], u.secrets[k]);
      GoodScriptSigSize(c, u.tx, k, u.secrets[k]);
    }
  }

  function NetworkMinimum(size: nat): int {
    VeriumFeeForSize(VIP1_MIN_TX_FEE_PER_K, size, true)
  }

  /** The price of the estimate is at least the minimum for the bytes that this size really has. */
  predicate PaysForSize(rate: int, n: nat, m: nat, size: int) {
    VIP1_MIN_TX_FEE_PER_K * (size / 1000 + 1) <= EffectiveRate(rate) * (Level(n, m) + 1)
  }

  ghost predicate PaysForBytes(rate: int, t: Tx) {
    var n, m := |t.inputs|, |t.outputs|;
    PaysForSize(rate, n, m, EstimateTxSize(n, m) + LongCounts(t) - Slack(t.inputs))
  }

  lemma {:induction false} PriceIff(rate: int, n: nat, m: nat, size: nat)
    ensures FeeForRate(rate, n, m) >= NetworkMinimum(size) <==> PaysForSize(rate, n, m, size)
  {
    FeeClosedForm(rate, n, m);
  }

  lemma {:induction false} PriceByLevel(rate: int, n: nat, m: nat, size: nat)
    ensures rate <= VIP1_MIN_TX_FEE_PER_K ==> (PaysForSize(rate, n, m, size) <==> size / 1000 <= Level(n, m))
    ensures size / 1000 <= Level(n, m) ==> PaysForSize(rate, n, m, size)
  {
    MulMonotone(Level(n, m) + 1, VIP1_MIN_TX_FEE_PER_K, EffectiveRate(rate));
  }

  /**
   * A fee priced at the estimate covers the network minimum for the serialized bytes exactly when the levels
   * at the two rates allow it; up to the minimum rate, exactly when the bytes reach no higher level.
   */
  lemma {:induction false} FeeCoversIff(t: Tx, rate: int)
    requires SpendShape(t)
    ensures FeeForRate(rate, |t.inputs|, |t.outputs|) >= NetworkMinimum(|EncodeTx(t)|) <==> PaysForBytes(rate, t)
    ensures rate <= VIP1_MIN_TX_FEE_PER_K ==>
      var n, m := |t.inputs|, |t.outputs|;
      PaysForBytes(rate, t) <==> (EstimateTxSize(n, m) + LongCounts(t) - Slack(t.inputs)) / 1000 <= Level(n, m)
    ensures LongCounts(t) <= Slack(t.inputs) ==> PaysForBytes(rate, t)
    ensures |t.inputs| < 253 && |t.outputs| < 253 ==> PaysForBytes(rate, t)
  {
    ExactSize(t);
    PriceIff(rate, |t.inputs|, |t.outputs|, |EncodeTx(t)|);
    PriceByLevel(rate, |t.inputs|, |t.outputs|, |EncodeTx(t)|);
  }

  /** Whatever the lengths of its signatures, the fee for these counts at this rate covers the bytes. */
  ghost predicate AlwaysCovers(rate: int, n: nat, m: nat) {
    forall t: Tx :: SpendShape(t) && |t.inputs| == n && |t.outputs| == m ==>
      FeeForRate(rate, n, m) >= NetworkMinimum(|EncodeTx(t)|)
  }

  /** Before the signatures are known, the counts decide it: with the longest ones. */
  lemma {:induction false} AlwaysCoversIff(rate: int, n: U64, m: U64)
    ensures AlwaysCovers(rate, n, m) <==> PaysForSize(rate, n, m, EstimateTxSize(n, m) + LongCountsOf(n, m))
  {
    if PaysForSize(rate, n, m, EstimateTxSize(n, m) + LongCountsOf(n, m)) {
      forall t: Tx | SpendShape(t) && |t.inputs| == n && |t.outputs| == m
        ensures FeeForRate(rate, n, m) >= NetworkMinimum(|EncodeTx(t)|)
      {
        CoversShorter(rate, t);
      }
    } else {
      LongestNotCovered(rate, n, m);
    }
  }

  lemma {:induction false} PaysForLess(rate: int, n: nat, m: nat, less: int, size: int)
    requires less <= size && PaysForSize(rate, n, m, size)
    ensures PaysForSize(rate, n, m, less)
  {
    assert less / 1000 <= size / 1000;
  }

  lemma {:induction false} CoversShorter(rate: int, t: Tx)
    requires SpendShape(t)
    requires PaysForSize(rate, |t.inputs|, |t.outputs|, EstimateTxSize(|t.inputs|, |t.outputs|) + LongCounts(t))
    ensures FeeForRate(rate, |t.inputs|, |t.outputs|) >= NetworkMinimum(|EncodeTx(t)|)
  {
    var worst := EstimateTxSize(|t.inputs|, |t.outputs|) + LongCounts(t);
    FeeCoversIff(t, rate);
    ExactSize(t);
    PaysForLess(rate, |t.inputs|, |t.outputs|, worst - Slack(t.inputs), worst);
  }

  lemma {:induction false} LongestNotCovered(rate: int, n: U64, m: U64)
    requires !PaysForSize(rate, n, m, EstimateTxSize(n, m) + LongCountsOf(n, m))
    ensures var t := Longest(n, m);
            && SpendShape(t) && |t.inputs| == n && |t.outputs| == m
            && FeeForRate(rate, n, m) < NetworkMinimum(|EncodeTx(t)|)
  {
    LongestIsWorst(n, m);
    FeeCoversIff(Longest(n, m), rate);
  }

  // ---------------------------------------------------------------- conservation

  function OutputTotal(outputs: seq<TxOut>): int {
    if outputs == [] then 0 else outputs[0].value + OutputTotal(outputs[1..])
  }

  lemma {:induction false} OutputTotalAppend(a: seq<TxOut>, b: seq<TxOut>)
    ensures OutputTotal(a + b) == OutputTotal(a) + OutputTotal(b)
  {
    if a == [] {
      assert a + b == b;
    } else {
      OutputTotalAppend(a[1..], b);
      assert (a + b)[1..] == a[1..] + b;
    }
  }

  lemma {:induction false} PaidTotal(c: Crypto, outputs: seq<Payment>, paid: seq<TxOut>)
    requires |paid| == |outputs| && AllPositive(outputs)
    requires forall k :: 0 <= k < |outputs| ==> PayTo(c, outputs[k]) == Success(paid[k])
    ensures OutputTotal(paid) == TotalPaid(outputs)
  {
    if outputs != [] {
      assert forall k :: 0 <= k < |outputs| - 1 ==> outputs[1..][k] == outputs[k + 1] && paid[1..][k] == paid[k + 1];
      PaidTotal(c, outputs[1..], paid[1..]);
    }
  }

  /** Nothing is created or lost: inputs are outputs plus fee plus a dust remainder that only exists without change. */
  lemma {:induction false} SpendConserves(c: Crypto, seed: Seed, utxos: seq<Utxo>, outputs: seq<Payment>,
                                          changeAddress: string, fee: int, now: U32)
    requires MachineRange(utxos, outputs, fee) && Lawful(c) && ValidSeed(c, seed) && AllPositive(outputs)
    requires SpendTx(c, seed, utxos, outputs, changeAddress, fee, now).Success?
    ensures var t := SpendTx(c, seed, utxos, outputs, changeAddress, fee, now).value;
            var dust := Total(utxos) - OutputTotal(t.outputs) - fee;
            && 0 <= dust <= DUST_CHANGE_SATS
            && (|t.outputs| > |outputs| ==> dust == 0)
            && |t.outputs| == OutputCount(Total(utxos), TotalPaid(outputs), fee, |outputs|)
  {
    var t := SpendTx(c, seed, utxos, outputs, changeAddress, fee, now).value;
    SpendFacts(c, seed, utxos, outputs, changeAddress, fee, now);
    AssembledOutputs(c, seed, utxos, outputs, changeAddress, fee, now);
    var paid, back := t.outputs[..|outputs|], t.outputs[|outputs|..];
    PaidTotal(c, outputs, paid);
    OutputTotalAppend(paid, back);
    assert t.outputs == paid + back;
    assert |back| == 1 ==> OutputTotal(back) == back[0].value + OutputTotal([]);
  }
}
