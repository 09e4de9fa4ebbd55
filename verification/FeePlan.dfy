/** Fees by size, the planner's fixpoint iteration, and the second planner run on refreshed coins. */
module FeePlan {
  import opened Bytes
  import opened CoinSelection
  import opened Outcome
  import opened Wallet

  const VIP1_MIN_TX_FEE_PER_K := 100_000
  const MAX_ROUNDS: nat := 8

  function EstimateTxSize(inputCount: nat, outputCount: nat): nat {
    14 + inputCount * 148 + outputCount * 34
  }

  function VeriumFeeForSize(satsPerK: int, size: nat, addStartFee: bool): int {
    var perSize := satsPerK * (size / 1000);
    var started := if addStartFee then perSize + satsPerK else perSize;
    if started == 0 && size != 0 && satsPerK > 0 then 1 else started
  }

  /** The rate is in satoshis per 1000 bytes. */
  function FeeForRate(rate: int, inputCount: nat, outputCount: nat): int {
    var size := EstimateTxSize(inputCount, outputCount);
    var userFee := VeriumFeeForSize(rate, size, true);
    var networkMin := VeriumFeeForSize(VIP1_MIN_TX_FEE_PER_K, size, true);
    if userFee >= networkMin then userFee else networkMin
  }

  function EffectiveRate(rate: int): (r: int)
    ensures r >= VIP1_MIN_TX_FEE_PER_K
  {
    if rate >= VIP1_MIN_TX_FEE_PER_K then rate else VIP1_MIN_TX_FEE_PER_K
  }

  function Level(inputCount: nat, outputCount: nat): nat {
    EstimateTxSize(inputCount, outputCount) / 1000
  }

  /** One rate for every started 1000 bytes, at the better of the two rates, whatever the user asked. */
  lemma {:induction false} FeeClosedForm(rate: int, n: nat, m: nat)
    ensures FeeForRate(rate, n, m) == EffectiveRate(rate) * (Level(n, m) + 1)
  {
    var k := Level(n, m);
    assert rate * k + rate == rate * (k + 1);
    assert VIP1_MIN_TX_FEE_PER_K * k + VIP1_MIN_TX_FEE_PER_K == VIP1_MIN_TX_FEE_PER_K * (k + 1);
    if rate >= VIP1_MIN_TX_FEE_PER_K {
      MulMonotone(k + 1, VIP1_MIN_TX_FEE_PER_K, rate);
    } else {
      MulMonotone(k + 1, rate, VIP1_MIN_TX_FEE_PER_K);
    }
  }

  /** The fee in numbers: the asked rate, or 100,000 if that is more, for every started 1000 bytes and once more. */
  lemma {:induction false} FeeInNumbers(rate: int, n: nat, m: nat)
    ensures rate >= 100_000 ==> FeeForRate(rate, n, m) == rate * ((14 + 148 * n + 34 * m) / 1000 + 1)
    ensures rate <= 100_000 ==> FeeForRate(rate, n, m) == 100_000 * ((14 + 148 * n + 34 * m) / 1000 + 1)
  {
    FeeClosedForm(rate, n, m);
  }

  lemma {:induction false} MulMonotone(k: nat, a: int, b: int)
    requires a <= b
    ensures a * k <= b * k
  {
  }

  /** A bigger estimate never costs less; a level apart costs at least one rate more. */
  lemma {:induction false} FeeMonotone(rate: int, n1: nat, m1: nat, n2: nat, m2: nat)
    requires EstimateTxSize(n1, m1) <= EstimateTxSize(n2, m2)
    ensures FeeForRate(rate, n1, m1) <= FeeForRate(rate, n2, m2)
    ensures FeeForRate(rate, n1, m1) != FeeForRate(rate, n2, m2) ==>
      FeeForRate(rate, n1, m1) + EffectiveRate(rate) <= FeeForRate(rate, n2, m2)
    ensures FeeForRate(rate, n1, m1) == FeeForRate(rate, n2, m2) <==> Level(n1, m1) == Level(n2, m2)
    ensures FeeForRate(rate, n1, m1) >= EffectiveRate(rate)
  {
    FeeClosedForm(rate, n1, m1);
    FeeClosedForm(rate, n2, m2);
    var e, k1, k2 := EffectiveRate(rate), Level(n1, m1), Level(n2, m2);
    assert k1 <= k2;
    assert e * (k2 + 1) == e * (k1 + 1) + (k2 - k1) * e;
    if k1 < k2 {
      MulMonotone(e, 1, k2 - k1);
    }
    assert e * (k1 + 1) == e * k1 + e && e * k1 >= 0;
  }

  predicate ChangeWillBeIncluded(inputSum: int, amount: int, fee: int) {
    inputSum - amount - fee > DUST_CHANGE_SATS
  }

  function OutputCount(inputSum: int, amount: int, fee: int, recipients: nat): nat {
    if ChangeWillBeIncluded(inputSum, amount, fee) then recipients + 1 else recipients
  }

  function AtLeastOne(recipientOutputs: nat): (r: nat)
    ensures r >= 1
  {
    if recipientOutputs >= 1 then recipientOutputs else 1
  }

  // ---------------------------------------------------------------- the planner

  /** One wallet at one rate: which coins cover a sum, and what a size costs. */
  datatype Market = Market(select: int -> Result<seq<Utxo>>, fee: (nat, nat) -> int)

  function MarketOf(utxos: seq<Utxo>, rate: int): Market {
    Market(needed => Selection(utxos, needed), (n: nat, m: nat) => FeeForRate(rate, n, m))
  }

  /** The fee for a selection if `fee` decides whether change is paid. */
  function NextFee(k: Market, selected: seq<Utxo>, amount: int, recipients: nat, fee: int): int {
    k.fee(|selected|, OutputCount(Total(selected), amount, fee, recipients))
  }

  /** Iterates fee -> selection -> fee, at most `rounds` more times. */
  function PlanFrom(k: Market, amount: int, recipients: nat, fee: int, rounds: nat): Result<(seq<Utxo>, int)>
    decreases rounds, fee
  {
    var selected :- k.select(amount + fee);
    if rounds == 0 then Failure(NotConverged)
    else
      var next := NextFee(k, selected, amount, recipients, fee);
      if next == fee then Success((selected, fee))
      else PlanFrom(k, amount, recipients, next, rounds - 1)
  }

  function Plan(utxos: seq<Utxo>, amount: int, rate: int, recipientOutputs: nat): Result<(seq<Utxo>, int)> {
    var k, recipients := MarketOf(utxos, rate), AtLeastOne(recipientOutputs);
    PlanFrom(k, amount, recipients, k.fee(1, recipients + 1), MAX_ROUNDS)
  }

  method SumValues(utxos: seq<Utxo>) returns (sum: int)
    ensures sum == Total(utxos)
  {
    sum := 0;
    for i := 0 to |utxos|
      invariant sum == Total(utxos[..i])
    {
      assert utxos[..i + 1] == utxos[..i] + [utxos[i]];
      TotalAppend(utxos[..i], [utxos[i]]);
      sum := sum + utxos[i].valueSats;
    }
    assert utxos[..|utxos|] == utxos;
  }

  ghost predicate Covers(k: Market) {
    forall x: int :: k.select(x).Success? ==> Total(k.select(x).value) >= x
  }

  /** The planner's loop, over any way to select coins and price sizes. */
  method RunPlanner(k: Market, amount: int, recipients: nat) returns (r: Result<(seq<Utxo>, int)>)
    requires Covers(k)
    ensures r == PlanFrom(k, amount, recipients, k.fee(1, recipients + 1), MAX_ROUNDS)
  {
    var fee := k.fee(1, recipients + 1);
    var selected :- k.select(amount + fee);
    for round := 0 to MAX_ROUNDS
      invariant k.select(amount + fee) == Success(selected)
      invariant PlanFrom(k, amount, recipients, k.fee(1, recipients + 1), MAX_ROUNDS)
             == PlanFrom(k, amount, recipients, fee, MAX_ROUNDS - round)
    {
      var selectedSum := SumValues(selected);
      var outputCount :=
        if ChangeWillBeIncluded(selectedSum, amount, fee) then recipients + 1 else recipients;
      var newFee := k.fee(|selected|, outputCount);
      var needed := amount + newFee;
      if newFee != fee || selectedSum < needed {
        fee := newFee;
        selected :- k.select(amount + fee);
        continue;
      }
      return Success((selected, fee));
    }
    return Failure(NotConverged);
  }

  /** The planner with the wallet's own selection, which SelectUtxos computes, and its own fee. */
  method PlanSendUtxos(utxos: seq<Utxo>, amount: int, rate: int, recipientOutputs: nat)
    returns (r: Result<(seq<Utxo>, int)>)
    ensures r == Plan(utxos, amount, rate, recipientOutputs)
  {
    var k := MarketOf(utxos, rate);
    forall x: int | k.select(x).Success?
      ensures Total(k.select(x).value) >= x
    {
      SelectionCovers(utxos, x);
    }
    r := RunPlanner(k, amount, AtLeastOne(recipientOutputs));
  }

  /** Larger sums take no fewer coins and no less value; larger sizes cost no less; every fee is positive. */
  ghost predicate Monotone(k: Market) {
    && (forall x: int, y: int :: 0 < x <= y && k.select(y).Success? ==>
          && k.select(x).Success?
          && 1 <= |k.select(x).value| <= |k.select(y).value|
          && x <= Total(k.select(x).value) <= Total(k.select(y).value))
    && (forall x: int :: k.select(x).Success? ==> 0 < x)
    && (forall n1: nat, m1: nat, n2: nat, m2: nat :: EstimateTxSize(n1, m1) <= EstimateTxSize(n2, m2) ==>
          0 < k.fee(n1, m1) <= k.fee(n2, m2))
  }

  lemma {:induction false} MarketIsMonotone(utxos: seq<Utxo>, rate: int)
    requires NonNegative(utxos)
    ensures Monotone(MarketOf(utxos, rate))
  {
    var k := MarketOf(utxos, rate);
    forall x: int, y: int | 0 < x <= y && k.select(y).Success?
      ensures k.select(x).Success?
      ensures 1 <= |k.select(x).value| <= |k.select(y).value|
      ensures x <= Total(k.select(x).value) <= Total(k.select(y).value)
    {
      SelectionMonotone(utxos, x, y);
      SelectionIsBest(utxos, x);
    }
    forall n1: nat, m1: nat, n2: nat, m2: nat | EstimateTxSize(n1, m1) <= EstimateTxSize(n2, m2)
      ensures 0 < k.fee(n1, m1) <= k.fee(n2, m2)
    {
      FeeMonotone(rate, n1, m1, n2, m2);
    }
  }

  /** The plan at this fee pays for itself: selecting for it asks for exactly this fee again. */
  ghost predicate SelfConsistent(k: Market, amount: int, recipients: nat, fee: int) {
    && k.select(amount + fee).Success?
    && NextFee(k, k.select(amount + fee).value, amount, recipients, fee) == fee
  }

  /** This plan pays change, or would cost the same if it did. */
  ghost predicate Robust(k: Market, amount: int, recipients: nat, fee: int)
    requires k.select(amount + fee).Success?
  {
    var selected := k.select(amount + fee).value;
    || ChangeWillBeIncluded(Total(selected), amount, fee)
    || k.fee(|selected|, recipients) == k.fee(|selected|, recipients + 1)
  }

  /** Whatever the planner returns is a self-consistent plan. */
  lemma {:induction false} PlanIsSelfConsistent(k: Market, amount: int, recipients: nat, fee: int, rounds: nat)
    requires PlanFrom(k, amount, recipients, fee, rounds).Success?
    ensures var (selected, f) := PlanFrom(k, amount, recipients, fee, rounds).value;
            SelfConsistent(k, amount, recipients, f) && k.select(amount + f) == Success(selected)
    decreases rounds
  {
    var selected := k.select(amount + fee).value;
    var next := NextFee(k, selected, amount, recipients, fee);
    if next != fee {
      PlanIsSelfConsistent(k, amount, recipients, next, rounds - 1);
    }
  }

  lemma {:induction false} PlanSelects(k: Market, amount: int, recipients: nat, fee: int, rounds: nat)
    requires PlanFrom(k, amount, recipients, fee, rounds).Success?
    ensures exists x: int :: k.select(x) == Success(PlanFrom(k, amount, recipients, fee, rounds).value.0)
  {
    PlanIsSelfConsistent(k, amount, recipients, fee, rounds);
  }

  /** From below a robust self-consistent fee the next round stays below it. */
  lemma {:induction false} RoundStaysBelow(k: Market, amount: int, recipients: nat, fee: int, f: int)
    requires Monotone(k) && 0 < amount + fee && fee <= f
    requires SelfConsistent(k, amount, recipients, f) && Robust(k, amount, recipients, f)
    ensures k.select(amount + fee).Success?
    ensures NextFee(k, k.select(amount + fee).value, amount, recipients, fee) <= f
  {
    var s, t := k.select(amount + fee).value, k.select(amount + f).value;
    assert EstimateTxSize(|s|, recipients) <= EstimateTxSize(|s|, recipients + 1);
    assert k.fee(|s|, recipients) <= k.fee(|s|, recipients + 1);
    if |s| < |t| {
      assert EstimateTxSize(|s|, recipients + 1) <= EstimateTxSize(|t|, recipients);
      assert EstimateTxSize(|t|, recipients) <= EstimateTxSize(|t|, recipients + 1);
      assert k.fee(|s|, recipients + 1) <= k.fee(|t|, recipients) <= k.fee(|t|, recipients + 1);
    }
  }

  lemma {:induction false} PlanStaysBelow(k: Market, amount: int, recipients: nat, fee: int, rounds: nat, f: int)
    requires Monotone(k) && amount >= 0 && 0 < fee <= f
    requires SelfConsistent(k, amount, recipients, f) && Robust(k, amount, recipients, f)
    ensures var r := PlanFrom(k, amount, recipients, fee, rounds);
            r != Failure(InsufficientFunds) && (r.Success? ==> r.value.1 <= f)
    decreases rounds
  {
    RoundStaysBelow(k, amount, recipients, fee, f);
    var selected := k.select(amount + fee).value;
    var next := NextFee(k, selected, amount, recipients, fee);
    if rounds > 0 && next != fee {
      var m := OutputCount(Total(selected), amount, fee, recipients);
      assert EstimateTxSize(|selected|, m) <= EstimateTxSize(|selected|, m);
      PlanStaysBelow(k, amount, recipients, next, rounds - 1, f);
    }
  }

  lemma {:induction false} FirstFeeIsBelow(k: Market, amount: int, recipients: nat, f: int)
    requires Monotone(k)
    requires SelfConsistent(k, amount, recipients, f) && Robust(k, amount, recipients, f)
    ensures 0 < k.fee(1, recipients + 1) <= f
  {
    var n := |k.select(amount + f).value|;
    assert 1 <= n;
    assert EstimateTxSize(1, recipients + 1) <= EstimateTxSize(1, recipients + 1);
    if n > 1 {
      assert EstimateTxSize(1, recipients + 1) <= EstimateTxSize(n, recipients);
      assert EstimateTxSize(n, recipients) <= EstimateTxSize(n, recipients + 1);
      assert k.fee(1, recipients + 1) <= k.fee(n, recipients) <= k.fee(n, recipients + 1);
    }
  }

  /**
   * The planner never passes a robust self-consistent fee: it does not report missing funds while
   * one exists, and what it returns costs no more than any of them.
   */
  lemma {:induction false} PlanNeverPassesRobustFee(
    utxos: seq<Utxo>, amount: int, rate: int, recipientOutputs: nat, f: int)
    requires NonNegative(utxos) && amount >= 0
    requires SelfConsistent(MarketOf(utxos, rate), amount, AtLeastOne(recipientOutputs), f)
    requires Robust(MarketOf(utxos, rate), amount, AtLeastOne(recipientOutputs), f)
    ensures var r := Plan(utxos, amount, rate, recipientOutputs);
            r != Failure(InsufficientFunds) && (r.Success? ==> r.value.1 <= f)
  {
    var k, recipients := MarketOf(utxos, rate), AtLeastOne(recipientOutputs);
    MarketIsMonotone(utxos, rate);
    FirstFeeIsBelow(k, amount, recipients, f);
    PlanStaysBelow(k, amount, recipients, k.fee(1, recipients + 1), MAX_ROUNDS, f);
  }
}
