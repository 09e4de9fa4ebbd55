/** The send pipeline: plan, prepare, replan, sign, verify, broadcast. */
module Send {
  import opened Bytes
  import opened CoinSelection
  import opened FeePlan
  import opened Hex
  import opened Outcome
  import opened PlannerRounds
  import opened Replan
  import opened ScriptCode
  import opened Signer
  import opened SignVerify
  import opened TxSize
  import opened UtxoPrep
  import opened Verify
  import opened Wallet
  import opened Wire

  const DEFAULT_RATE := 100_000

  datatype SendParams = SendParams(recipient: string, amount: I64, rate: I64, utxos: seq<Utxo>, changeAddress: string)

  datatype SendResult = SendResult(txid: string, rawHex: string, fee: int, change: int, spent: seq<Utxo>)

  function EffectiveUserRate(rate: I64): I64 {
    if rate > 0 then rate else DEFAULT_RATE
  }

  /** Money that can be added and subtracted four times without leaving the 64-bit range. */
  const MAX_MONEY := 0x2000_0000_0000_0000

  predicate InI64(n: int) {
    -TWO_63 <= n < TWO_63
  }

  /** What a coin is worth when the chain shows its parent. */
  function RefreshedValue(c: Crypto, b: Backend): Utxo -> int {
    (u: Utxo) => match Refreshed(c, b, u) case Success(r) => r.valueSats case Failure(_) => 0
  }

  /**
   * Plausible money: the wallet's coins together, as it knows them and as the chain shows them, the
   * amount, and the fee for spending every coin are each less than the bound.
   */
  ghost predicate PlausibleMoney(c: Crypto, b: Backend, p: SendParams) {
    && -MAX_MONEY <= p.amount <= MAX_MONEY
    && (forall u :: u in p.utxos ==> 0 <= u.valueSats) && Total(p.utxos) <= MAX_MONEY
    && (forall u :: u in p.utxos ==> 0 <= RefreshedValue(c, b)(u)) && SumBy(RefreshedValue(c, b), p.utxos) <= MAX_MONEY
    && FeeForRate(EffectiveUserRate(p.rate), |p.utxos|, 2) <= MAX_MONEY
  }

  /** What the first three stages settle. */
  datatype Quote = Quote(selected: seq<Utxo>, fee: int)

  function Quoted(c: Crypto, b: Backend, p: SendParams): Result<Quote> {
    var rate := EffectiveUserRate(p.rate);
    if p.utxos == [] then Failure(InsufficientFunds)
    else
      var plan :- Plan(p.utxos, p.amount, rate, 1);
      var selected :- Collect(|plan.0|, RefreshAt(c, b, plan.0), 0);
      var fee :- ReplanFee(selected, p.amount, rate, 1);
      Success(Quote(selected, fee))
  }

  function PaymentOf(p: SendParams): seq<Payment> {
    [Payment(p.recipient, p.amount)]
  }

  /** What is left to do with a signed transaction, when nothing is verified but the amount's sign. */
  ghost function Sent(b: Backend, p: SendParams, q: Quote, t: Tx): Result<SendResult> {
    if p.amount <= 0 then Failure(BadAmount)
    else
      var hex := HexEncode(EncodeTx(t));
      var txid :- b.broadcast(hex);
      Success(SendResult(txid, hex, q.fee, Change(q.selected, PaymentOf(p), q.fee), q.selected))
  }

  ghost function Released(b: Backend, p: SendParams, q: Quote, spend: Result<Tx>): Result<SendResult> {
    var t :- spend;
    if !FitsWindow(t) then Failure(DecodeFailed) else Sent(b, p, q, t)
  }

  /** Signing and broadcasting, where only outsized transactions and amounts that are not positive are refused. */
  ghost function Finished(c: Crypto, seed: Seed, b: Backend, p: SendParams, q: Quote, now: U32): Result<SendResult>
    requires MachineRange(q.selected, PaymentOf(p), q.fee)
  {
    Released(b, p, q, SpendTx(c, seed, q.selected, PaymentOf(p), p.changeAddress, q.fee, now))
  }

  /** Signing and broadcasting without any limit of size. */
  ghost function Unlimited(c: Crypto, seed: Seed, b: Backend, p: SendParams, q: Quote, now: U32): Result<SendResult>
    requires MachineRange(q.selected, PaymentOf(p), q.fee)
  {
    var t :- SpendTx(c, seed, q.selected, PaymentOf(p), p.changeAddress, q.fee, now);
    Sent(b, p, q, t)
  }

  // ---------------------------------------------------------------- ranges

  /** Fees grow with the counts, and a fee within bounds bounds the number of coins. */
  lemma {:induction false} FeeBound(rate: int, n: nat, m: nat, all: nat)
    requires n <= all && m <= 2 && FeeForRate(rate, all, 2) <= MAX_MONEY
    ensures 0 < FeeForRate(rate, n, m) <= MAX_MONEY && n < TWO_63
  {
    FeeMonotone(rate, n, m, all, 2);
    FeeClosedForm(rate, n, m);
    MulMonotone(Level(n, m) + 1, VIP1_MIN_TX_FEE_PER_K, EffectiveRate(rate));
    assert EstimateTxSize(n, m) < 1000 * (Level(n, m) + 1);
  }

  /** Every intermediate result of pricing a size is at most the fee it gives. */
  lemma {:induction false} PricingInRange(rate: int, n: nat, m: nat)
    requires rate > 0
    ensures var size, fee := EstimateTxSize(n, m), FeeForRate(rate, n, m);
            var perSize, minimum := rate * (size / 1000), VIP1_MIN_TX_FEE_PER_K * (size / 1000);
            && 0 <= perSize <= perSize + rate <= fee
            && 0 <= minimum <= minimum + VIP1_MIN_TX_FEE_PER_K <= fee
  {
    MulMonotone(Level(n, m), 0, rate);
  }

  lemma {:induction false} PlannedFrom(utxos: seq<Utxo>, amount: int, rate: int)
    requires Plan(utxos, amount, rate, 1).Success?
    ensures multiset(Plan(utxos, amount, rate, 1).value.0) <= multiset(utxos)
  {
    var k := MarketOf(utxos, rate);
    PlanSelects(k, amount, 1, k.fee(1, 2), MAX_ROUNDS);
    var x :| k.select(x) == Success(Plan(utxos, amount, rate, 1).value.0);
    SelectionIsBest(utxos, x);
  }

  /** What any of the wallet's coins add up to. */
  lemma {:induction false} SumInRange(c: Crypto, b: Backend, p: SendParams, some: seq<Utxo>)
    requires PlausibleMoney(c, b, p) && multiset(some) <= multiset(p.utxos)
    ensures 0 <= Total(some) <= MAX_MONEY && 0 <= SumBy(RefreshedValue(c, b), some) <= MAX_MONEY && |some| <= |p.utxos|
  {
    PartSum((u: Utxo) => u.valueSats, some, p.utxos);
    PartSum(RefreshedValue(c, b), some, p.utxos);
    TotalIsSum(some);
    TotalIsSum(p.utxos);
  }

  /** Every running total of the selection loop, over the coins as it sorts them. */
  lemma {:induction false} RunningTotalsInRange(c: Crypto, b: Backend, p: SendParams, j: nat)
    requires PlausibleMoney(c, b, p) && j <= |SortByValue(p.utxos)|
    ensures 0 <= Total(SortByValue(p.utxos)[..j]) <= MAX_MONEY
  {
    PrefixOfSorted(p.utxos, j);
    SumInRange(c, b, p, SortByValue(p.utxos)[..j]);
  }

  /** What one round of either planner computes from a fee and the coins it has. */
  ghost predicate RoundInRange(amount: int, sum: int, fee: int) {
    0 < fee <= MAX_MONEY && InI64(amount + fee) && InI64(sum - amount) && InI64(sum - amount - fee)
  }

  /** What selections are worth and what sizes cost, for a wallet of `all` coins. */
  ghost predicate Bounded(k: Market, all: nat) {
    && (forall x: int :: k.select(x).Success? ==>
          0 <= Total(k.select(x).value) <= MAX_MONEY && |k.select(x).value| <= all)
    && (forall n: nat, m: nat :: n <= all && m <= 2 ==> 0 < k.fee(n, m) <= MAX_MONEY)
  }

  lemma {:induction false} WalletIsBounded(c: Crypto, b: Backend, p: SendParams)
    requires PlausibleMoney(c, b, p)
    ensures Bounded(MarketOf(p.utxos, EffectiveUserRate(p.rate)), |p.utxos|)
  {
    var k := MarketOf(p.utxos, EffectiveUserRate(p.rate));
    forall x: int | k.select(x).Success?
      ensures 0 <= Total(k.select(x).value) <= MAX_MONEY && |k.select(x).value| <= |p.utxos|
    {
      SelectionIsBest(p.utxos, x);
      SumInRange(c, b, p, k.select(x).value);
    }
    forall n: nat, m: nat | n <= |p.utxos| && m <= 2
      ensures 0 < k.fee(n, m) <= MAX_MONEY
    {
      FeeBound(EffectiveUserRate(p.rate), n, m, |p.utxos|);
    }
  }

  lemma {:induction false} FeeTriedInRange(k: Market, amount: int, all: nat, i: nat)
    requires Bounded(k, all) && all >= 1
    ensures var fee := FeeTried(k, amount, 1, i); fee.Some? ==> 0 < fee.value <= MAX_MONEY
  {
    if i > 0 && FeeTried(k, amount, 1, i).Some? {
      var s := k.select(amount + FeeTried(k, amount, 1, i - 1).value).value;
      assert |s| <= all;
    }
  }

  /** In every round of the planner, whatever fee it tries, no sum leaves the 64-bit range. */
  lemma {:induction false} PlannerInRange(c: Crypto, b: Backend, p: SendParams, i: nat)
    requires PlausibleMoney(c, b, p) && p.utxos != []
    ensures var k := MarketOf(p.utxos, EffectiveUserRate(p.rate));
            var fee := FeeTried(k, p.amount, 1, i);
            fee.Some? ==>
              && 0 < fee.value <= MAX_MONEY && InI64(p.amount + fee.value)
              && (k.select(p.amount + fee.value).Success? ==>
                    RoundInRange(p.amount, Total(k.select(p.amount + fee.value).value), fee.value))
  {
    WalletIsBounded(c, b, p);
    FeeTriedInRange(MarketOf(p.utxos, EffectiveUserRate(p.rate)), p.amount, |p.utxos|, i);
  }

  lemma {:induction false} PointwiseTotal(value: Utxo -> int, before: seq<Utxo>, after: seq<Utxo>)
    requires |before| == |after| && forall k :: 0 <= k < |before| ==> after[k].valueSats == value(before[k])
    ensures Total(after) == SumBy(value, before)
  {
    if before != [] {
      PointwiseTotal(value, before[1..], after[1..]);
    }
  }

  ghost predicate GivesValue(r: Result<Utxo>, value: int) {
    r.Success? ==> r.value.valueSats == value
  }

  lemma {:induction false} CollectedTotal(plan: seq<Utxo>, step: nat -> Result<Utxo>, value: Utxo -> int)
    requires Collect(|plan|, step, 0).Success?
    requires forall k: nat :: k < |plan| ==> GivesValue(step(k), value(plan[k]))
    ensures |Collect(|plan|, step, 0).value| == |plan| && Total(Collect(|plan|, step, 0).value) == SumBy(value, plan)
  {
    CollectAll(|plan|, step, 0);
    var selected := Collect(|plan|, step, 0).value;
    forall k | 0 <= k < |plan|
      ensures selected[k].valueSats == value(plan[k])
    {
      assert step(k) == Success(selected[k]) && GivesValue(step(k), value(plan[k]));
    }
    PointwiseTotal(value, plan, selected);
  }

  /** Refreshing a plan gives as many coins, worth what the chain shows. */
  lemma {:induction false} RefreshedTotal(c: Crypto, b: Backend, plan: seq<Utxo>)
    requires Collect(|plan|, RefreshAt(c, b, plan), 0).Success?
    ensures var selected := Collect(|plan|, RefreshAt(c, b, plan), 0).value;
            |selected| == |plan| && Total(selected) == SumBy(RefreshedValue(c, b), plan)
  {
    CollectedTotal(plan, RefreshAt(c, b, plan), RefreshedValue(c, b));
  }

  /** The fee is the price, at one of the two output counts, of the outputs it leaves room for. */
  lemma {:induction false} ReplannedFee(selected: seq<Utxo>, amount: int, rate: int)
    requires ReplanFee(selected, amount, rate, 1).Success?
    ensures var fee := ReplanFee(selected, amount, rate, 1).value;
            && selected != []
            && fee == FeeForRate(rate, |selected|, OutputCount(Total(selected), amount, fee, 1))
            && 1 <= OutputCount(Total(selected), amount, fee, 1) <= 2
  {
    var n := |selected|;
    FeeMonotone(rate, n, 1, n, 2);
    SettledIsFixpoint(Total(selected), amount, FeeForRate(rate, n, 1), FeeForRate(rate, n, 2));
  }

  /** The coins finally spent, the fee and the change stay within a signed 64-bit word, and the fee is a fixpoint. */
  lemma {:induction false} QuoteInRange(c: Crypto, b: Backend, p: SendParams)
    requires PlausibleMoney(c, b, p) && Quoted(c, b, p).Success?
    ensures var q := Quoted(c, b, p).value;
            && MachineRange(q.selected, PaymentOf(p), q.fee)
            && 1 <= |q.selected| <= |p.utxos|
            && 0 <= Total(q.selected) <= MAX_MONEY && RoundInRange(p.amount, Total(q.selected), q.fee)
            && q.fee == FeeForRate(if p.rate > 0 then p.rate else 100_000, |q.selected|,
                                   OutputCount(Total(q.selected), p.amount, q.fee, 1))
  {
    var rate := EffectiveUserRate(p.rate);
    var plan := Plan(p.utxos, p.amount, rate, 1).value.0;
    var q := Quoted(c, b, p).value;
    PlannedFrom(p.utxos, p.amount, rate);
    SumInRange(c, b, p, plan);
    RefreshedTotal(c, b, plan);
    ReplannedFee(q.selected, p.amount, rate);
    FeeBound(rate, |q.selected|, OutputCount(Total(q.selected), p.amount, q.fee, 1), |p.utxos|);
    OnePayment(p);
  }

  /** The coins of a quote are those planned at this rate, each refreshed, and the fee is planned again for them. */
  ghost predicate QuotedFrom(c: Crypto, b: Backend, p: SendParams, q: Quote, rate: int, coins: seq<Utxo>, fee: int) {
    && Plan(p.utxos, p.amount, rate, 1) == Success((coins, fee))
    && |q.selected| == |coins| && (forall k :: 0 <= k < |coins| ==> Refreshed(c, b, coins[k]) == Success(q.selected[k]))
    && ReplanFee(q.selected, p.amount, rate, 1) == Success(q.fee)
  }

  lemma {:induction false} RefreshedAll(c: Crypto, b: Backend, coins: seq<Utxo>, selected: seq<Utxo>)
    ensures Collect(|coins|, RefreshAt(c, b, coins), 0) == Success(selected) <==>
      |selected| == |coins| && forall k :: 0 <= k < |coins| ==> Refreshed(c, b, coins[k]) == Success(selected[k])
  {
    var step := RefreshAt(c, b, coins);
    assert forall k: nat :: k < |coins| ==> step(k) == Refreshed(c, b, coins[k]);
    CollectedIff(|coins|, step, selected);
  }

  lemma {:induction false} QuoteMeans(c: Crypto, b: Backend, p: SendParams, q: Quote)
    ensures var rate := if p.rate > 0 then p.rate else 100_000;
            Quoted(c, b, p) == Success(q) <==>
            p.utxos != [] && exists coins: seq<Utxo>, fee: int :: QuotedFrom(c, b, p, q, rate, coins, fee)
  {
    var rate := if p.rate > 0 then p.rate else 100_000;
    if Plan(p.utxos, p.amount, rate, 1).Success? {
      var (coins, fee) := Plan(p.utxos, p.amount, rate, 1).value;
      RefreshedAll(c, b, coins, q.selected);
      assert QuotedFrom(c, b, p, q, rate, coins, fee) <==>
             Collect(|coins|, RefreshAt(c, b, coins), 0) == Success(q.selected)
             && ReplanFee(q.selected, p.amount, rate, 1) == Success(q.fee);
    }
  }

  // ---------------------------------------------------------------- the pipeline

  method QuoteSend(c: Crypto, b: Backend, p: SendParams) returns (r: Result<Quote>)
    ensures r == Quoted(c, b, p)
  {
    var rate := if p.rate > 0 then p.rate else DEFAULT_RATE;
    if p.utxos == [] {
      return Failure(InsufficientFunds);
    }
    var plan :- PlanSendUtxos(p.utxos, p.amount, rate, 1);
    var selected := new Utxo[|plan.0|](k requires 0 <= k < |plan.0| => plan.0[k]);
    assert selected[..] == plan.0;
    var _ :- PrepareUtxosForSigning(c, b, selected);
    var fee :- ReplanFeeForSelected(selected[..], p.amount, rate, 1);
    return Success(Quote(selected[..], fee));
  }

  method VerifyBoth(c: Crypto, hex: string, outputs: seq<Payment>, utxos: seq<Utxo>) returns (r: Result<()>)
    requires OutputsVerdict(c, hex, outputs).Success? ==> InputsVerdict(c, hex, utxos) == Success(())
    ensures r == OutputsVerdict(c, hex, outputs)
  {
    var _ :- VerifySendOutputs(c, hex, outputs);
    r := VerifySignedP2pkhInputs(c, hex, utxos);
  }

  /** The verdict of both verifications on what was just signed. */
  ghost function Verdict(p: SendParams, t: Tx): Result<()> {
    if !FitsWindow(t) then Failure(DecodeFailed)
    else if p.amount <= 0 then Failure(BadAmount)
    else Success(())
  }

  /** What signing and both verifications hand on to the broadcast. */
  ghost predicate SignedAs(p: SendParams, spend: Result<Tx>, r: Result<string>) {
    match spend
    case Failure(e) => r == Failure(e)
    case Success(t) =>
      match Verdict(p, t)
      case Failure(e) => r == Failure(e)
      case Success(_) => r == Success(HexEncode(EncodeTx(t)))
  }

  /**
   * Signing followed by both verifications, which turn away only outsized transactions and amounts that are not
   * positive.
   */
  method SignAndVerify(c: Crypto, seed: Seed, p: SendParams, q: Quote, now: U32) returns (r: Result<string>)
    requires Lawful(c) && ValidSeed(c, seed)
    requires MachineRange(q.selected, PaymentOf(p), q.fee) && q.selected != []
    ensures SignedAs(p, SpendTx(c, seed, q.selected, PaymentOf(p), p.changeAddress, q.fee, now), r)
  {
    var signed :- SignTransaction(c, seed, q.selected, PaymentOf(p), p.changeAddress, q.fee, now);
    VerificationPasses(c, seed, p, q, now);
    var _ :- VerifyBoth(c, signed.hex, PaymentOf(p), q.selected);
    return Success(signed.hex);
  }

  method Release(b: Backend, p: SendParams, q: Quote, signed: Result<string>, ghost spend: Result<Tx>)
    returns (r: Result<SendResult>)
    requires SignedAs(p, spend, signed)
    ensures r == Released(b, p, q, spend)
  {
    var hex :- signed;
    var txid :- b.broadcast(hex);
    var inputSum := SumValues(q.selected);
    OnePayment(p);
    return Success(SendResult(txid, hex, q.fee, inputSum - p.amount - q.fee, q.selected));
  }

  /**
   * With lawful cryptography and plausible money the two verification stages turn away a signed payment
   * exactly if it is too large to be decoded again or its amount is not positive; one that spends at most
   * 27,027 coins is never too large.
   */
  method SendPayment(c: Crypto, seed: Seed, b: Backend, p: SendParams, now: U32) returns (r: Result<SendResult>)
    requires Lawful(c) && ValidSeed(c, seed) && PlausibleMoney(c, b, p)
    ensures match Quoted(c, b, p)
            case Failure(e) => r == Failure(e)
            case Success(q) =>
              && MachineRange(q.selected, PaymentOf(p), q.fee) && |q.selected| <= |p.utxos|
              && r == Finished(c, seed, b, p, q, now)
              && (|q.selected| <= MAX_WINDOW_INPUTS ==> r == Unlimited(c, seed, b, p, q, now))
  {
    var q :- QuoteSend(c, b, p);
    QuoteInRange(c, b, p);
    NeverTooLarge(c, seed, b, p, q, now);
    var signed := SignAndVerify(c, seed, p, q, now);
    r := Release(b, p, q, signed, SpendTx(c, seed, q.selected, PaymentOf(p), p.changeAddress, q.fee, now));
  }

  lemma {:induction false} OnePayment(p: SendParams)
    ensures TotalPaid(PaymentOf(p)) == p.amount && |PaymentOf(p)| == 1
    ensures AllPositive(PaymentOf(p)) <==> p.amount > 0
  {
    assert TotalPaid(PaymentOf(p)) == p.amount + TotalPaid([]);
    assert PaymentOf(p)[0].sats == p.amount;
  }

  /** On the transaction that was just signed, verification can only object to its size and the amount. */
  lemma {:induction false} VerificationPasses(c: Crypto, seed: Seed, p: SendParams, q: Quote, now: U32)
    requires Lawful(c) && ValidSeed(c, seed)
    requires MachineRange(q.selected, PaymentOf(p), q.fee) && q.selected != []
    requires SpendTx(c, seed, q.selected, PaymentOf(p), p.changeAddress, q.fee, now).Success?
    ensures var t := SpendTx(c, seed, q.selected, PaymentOf(p), p.changeAddress, q.fee, now).value;
            && (FitsWindow(t) ==> InputsVerdict(c, HexEncode(EncodeTx(t)), q.selected) == Success(()))
            && OutputsVerdict(c, HexEncode(EncodeTx(t)), PaymentOf(p)) == Verdict(p, t)
  {
    var outputs := PaymentOf(p);
    var t := SpendTx(c, seed, q.selected, outputs, p.changeAddress, q.fee, now).value;
    OnePayment(p);
    SignedInputsAccepted(c, seed, q.selected, outputs, p.changeAddress, q.fee, now);
    if !FitsWindow(t) {
      DecodeSerialized(t);
    } else if p.amount > 0 {
      SignedOutputsAccepted(c, seed, q.selected, outputs, p.changeAddress, q.fee, now);
    } else {
      SpendCounts(c, seed, p, q, now);
      BadAmountVerdict(c, t, p);
    }
  }

  /** A payment has one output or two. */
  lemma {:induction false} SpendCounts(c: Crypto, seed: Seed, p: SendParams, q: Quote, now: U32)
    requires Lawful(c) && ValidSeed(c, seed)
    requires MachineRange(q.selected, PaymentOf(p), q.fee)
    requires SpendTx(c, seed, q.selected, PaymentOf(p), p.changeAddress, q.fee, now).Success?
    ensures var t := SpendTx(c, seed, q.selected, PaymentOf(p), p.changeAddress, q.fee, now).value;
            SpendShape(t) && |t.inputs| == |q.selected| && 1 <= |t.outputs| <= 2
  {
    SpendFacts(c, seed, q.selected, PaymentOf(p), p.changeAddress, q.fee, now);
    AssembledOutputs(c, seed, q.selected, PaymentOf(p), p.changeAddress, q.fee, now);
  }

  /** Up to 27,027 coins the size of a payment is no reason to refuse it. */
  lemma {:induction false} NeverTooLarge(c: Crypto, seed: Seed, b: Backend, p: SendParams, q: Quote, now: U32)
    requires Lawful(c) && ValidSeed(c, seed)
    requires MachineRange(q.selected, PaymentOf(p), q.fee)
    ensures |q.selected| <= MAX_WINDOW_INPUTS ==> Finished(c, seed, b, p, q, now) == Unlimited(c, seed, b, p, q, now)
  {
    if SpendTx(c, seed, q.selected, PaymentOf(p), p.changeAddress, q.fee, now).Success? {
      SpendCounts(c, seed, p, q, now);
      var t := SpendTx(c, seed, q.selected, PaymentOf(p), p.changeAddress, q.fee, now).value;
      AlwaysFitsIff(|t.inputs|, |t.outputs|);
    }
  }

  lemma {:induction false} BadAmountVerdict(c: Crypto, t: Tx, p: SendParams)
    requires FitsWindow(t) && t.inputs != [] && t.outputs != [] && p.amount <= 0
    ensures OutputsVerdict(c, HexEncode(EncodeTx(t)), PaymentOf(p)) == Failure(BadAmount)
  {
    DecodeSerialized(t);
  }

  /** What the transaction sent pays and to whom, and what is left. */
  ghost predicate DeliversMoney(c: Crypto, p: SendParams, r: SendResult, t: Tx) {
    && 1 <= |t.outputs| <= 2 && Pays(c, t.outputs[0], p.recipient, p.amount)
    && (r.change > 546 ==> |t.outputs| == 2 && Pays(c, t.outputs[1], p.changeAddress, r.change))
    && (r.change <= 546 ==> |t.outputs| == 1 && r.change >= 0)
    && Total(r.spent) == OutputTotal(t.outputs) + r.fee + (if r.change > 546 then 0 else r.change)
  }

  /** What it costs at the user's rate, or at 100,000 sats per 1000 bytes, and whether that pays for its bytes. */
  ghost predicate DeliversFee(p: SendParams, r: SendResult, t: Tx) {
    var rate := if p.rate > 0 then p.rate else 100_000;
    && r.fee == FeeForRate(rate, |r.spent|, |t.outputs|)
    && (r.fee >= NetworkMinimum(|EncodeTx(t)|) <==> PaysForBytes(rate, t))
    && (|r.spent| < 253 ==> PaysForBytes(rate, t))
  }

  /**
   * The bytes sent, under the id answered, are a transaction of now that spends exactly the coins reported, as the
   * network demands.
   */
  ghost predicate DeliversSpend(c: Crypto, b: Backend, r: SendResult, t: Tx, now: U32) {
    && HexDecode(r.rawHex) == Some(EncodeTx(t)) && b.broadcast(r.rawHex) == Success(r.txid)
    && SpendFields(t, r.spent, now)
    && forall k :: 0 <= k < |t.inputs| ==> Spends(c, t, k, r.spent[k])
  }

  ghost predicate Delivers(c: Crypto, b: Backend, p: SendParams, r: SendResult, t: Tx, now: U32) {
    DeliversMoney(c, p, r, t) && DeliversFee(p, r, t) && DeliversSpend(c, b, r, t, now)
  }

  /**
   * A completed payment pays the recipient the amount, and returns the reported change in a last output or
   * leaves at most the dust limit. It spends the coins reported, with signatures that the network accepts, and
   * costs what the user's rate asks for. Its fee reaches the network minimum for the bytes broadcast exactly if
   * the level of the estimate pays for them, which fewer than 253 coins guarantee.
   */
  lemma {:induction false} CompletedPaymentDelivers(c: Crypto, seed: Seed, b: Backend, p: SendParams, q: Quote,
                                                    now: U32)
    requires Lawful(c) && ValidSeed(c, seed) && PlausibleMoney(c, b, p) && Quoted(c, b, p) == Success(q)
    ensures MachineRange(q.selected, PaymentOf(p), q.fee)
    ensures var r := Finished(c, seed, b, p, q, now);
            r.Success? ==>
              && DecodeHexTx(r.value.rawHex).Success?
              && Delivers(c, b, p, r.value, DecodeHexTx(r.value.rawHex).value, now)
  {
    QuoteInRange(c, b, p);
    if Finished(c, seed, b, p, q, now).Success? {
      FinishedDelivers(c, seed, b, p, q, now);
    }
  }

  lemma {:induction false} FinishedDelivers(c: Crypto, seed: Seed, b: Backend, p: SendParams, q: Quote, now: U32)
    requires Lawful(c) && ValidSeed(c, seed)
    requires MachineRange(q.selected, PaymentOf(p), q.fee)
    requires q.fee == FeeForRate(if p.rate > 0 then p.rate else 100_000, |q.selected|,
                                 OutputCount(Total(q.selected), p.amount, q.fee, 1))
    requires Finished(c, seed, b, p, q, now).Success?
    ensures var r := Finished(c, seed, b, p, q, now).value;
            DecodeHexTx(r.rawHex).Success? && Delivers(c, b, p, r, DecodeHexTx(r.rawHex).value, now)
  {
    var outputs := PaymentOf(p);
    var t := SpendTx(c, seed, q.selected, outputs, p.changeAddress, q.fee, now).value;
    var r := Finished(c, seed, b, p, q, now).value;
    DecodeSerialized(t);
    HexRoundTrip(EncodeTx(t));
    SpendFacts(c, seed, q.selected, outputs, p.changeAddress, q.fee, now);
    FinishedMoney(c, seed, b, p, q, now);
    FeeCoversIff(t, if p.rate > 0 then p.rate else 100_000);
    SignedFields(c, seed, q.selected, outputs, p.changeAddress, q.fee, now);
  }

  lemma {:induction false} FinishedMoney(c: Crypto, seed: Seed, b: Backend, p: SendParams, q: Quote, now: U32)
    requires Lawful(c) && ValidSeed(c, seed)
    requires MachineRange(q.selected, PaymentOf(p), q.fee)
    requires Finished(c, seed, b, p, q, now).Success?
    ensures var t := SpendTx(c, seed, q.selected, PaymentOf(p), p.changeAddress, q.fee, now).value;
            && DeliversMoney(c, p, Finished(c, seed, b, p, q, now).value, t)
            && |t.outputs| == OutputCount(Total(q.selected), p.amount, q.fee, 1)
  {
    var outputs := PaymentOf(p);
    var t := SpendTx(c, seed, q.selected, outputs, p.changeAddress, q.fee, now).value;
    OnePayment(p);
    SpendFacts(c, seed, q.selected, outputs, p.changeAddress, q.fee, now);
    AssembledOutputs(c, seed, q.selected, outputs, p.changeAddress, q.fee, now);
    SpendConserves(c, seed, q.selected, outputs, p.changeAddress, q.fee, now);
    ChangeScript(c, seed, q.selected, outputs, p.changeAddress, q.fee, now);
    TotalOfOutputs(c, p, t, Change(q.selected, outputs, q.fee));
  }

  lemma {:induction false} TotalOfOutputs(c: Crypto, p: SendParams, t: Tx, change: int)
    requires p.amount > 0 && |t.outputs| >= 1 && PayTo(c, PaymentOf(p)[0]) == Success(t.outputs[0])
    ensures |t.outputs| == 1 ==> OutputTotal(t.outputs) == p.amount
    ensures |t.outputs| == 2 && t.outputs[1].value == change ==> OutputTotal(t.outputs) == p.amount + change
  {
    if |t.outputs| == 2 {
      assert OutputTotal(t.outputs[1..]) == t.outputs[1].value + OutputTotal(t.outputs[1..][1..]);
    }
  }
}
