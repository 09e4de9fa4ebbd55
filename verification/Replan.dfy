/** The fee for coins already chosen, after their values were refreshed from the chain. */
module Replan {
  import CoinSelection
  import opened FeePlan
  import opened Outcome
  import opened Wallet

  /** What the two possible output counts cost decides everything. */
  function Settled(inputSum: int, amount: int, low: int, high: int): Result<int> {
    if ChangeWillBeIncluded(inputSum, amount, high) then Success(high)
    else if low != high && ChangeWillBeIncluded(inputSum, amount, low) then Failure(NotConverged)
    else if inputSum < amount + low then Failure(InsufficientFunds)
    else Success(low)
  }

  function ReplanFee(selected: seq<Utxo>, amount: int, rate: int, recipientOutputs: nat): Result<int> {
    var n, recipients := |selected|, AtLeastOne(recipientOutputs);
    if selected == [] then Failure(NoInputsSelected)
    else Settled(Total(selected), amount, FeeForRate(rate, n, recipients), FeeForRate(rate, n, recipients + 1))
  }

  /** The loop over the two fees: any number of rounds from two on gives the same outcome. */
  method SettleFee(inputSum: int, amount: int, low: int, high: int, rounds: nat) returns (r: Result<int>)
    requires low <= high && rounds >= 2
    ensures r == Settled(inputSum, amount, low, high)
  {
    var fee := high;
    for round := 0 to rounds
      invariant round == 0 ==> fee == high
      invariant round > 0 ==> low != high && !ChangeWillBeIncluded(inputSum, amount, high)
      invariant round > 1 ==> ChangeWillBeIncluded(inputSum, amount, low)
      invariant fee == low || fee == high
      invariant round == 1 ==> fee == low
    {
      var newFee := if ChangeWillBeIncluded(inputSum, amount, fee) then high else low;
      if newFee == fee {
        if inputSum < amount + newFee {
          return Failure(InsufficientFunds);
        }
        return Success(newFee);
      }
      fee := newFee;
    }
    return Failure(NotConverged);
  }

  method ReplanFeeForSelected(selected: seq<Utxo>, amount: int, rate: int, recipientOutputs: nat)
    returns (r: Result<int>)
    ensures r == ReplanFee(selected, amount, rate, recipientOutputs)
  {
    if selected == [] {
      return Failure(NoInputsSelected);
    }
    var recipients := AtLeastOne(recipientOutputs);
    var inputSum := SumValues(selected);
    FeeMonotone(rate, |selected|, recipients, |selected|, recipients + 1);
    r := SettleFee(inputSum, amount, FeeForRate(rate, |selected|, recipients),
                   FeeForRate(rate, |selected|, recipients + 1), MAX_ROUNDS);
  }

  /** The fee equals the price of the outputs it leaves room for. */
  ghost predicate Fixpoint(inputSum: int, amount: int, low: int, high: int, fee: int) {
    fee == if ChangeWillBeIncluded(inputSum, amount, fee) then high else low
  }

  /**
   * The outcome in terms of fixpoints: success is the only fixpoint there is, and affordable;
   * missing funds is a fixpoint that is not; no convergence means that there is no fixpoint, which
   * happens exactly when the lower fee leaves room for change and the higher one takes it away.
   */
  lemma {:induction false} SettledIsFixpoint(inputSum: int, amount: int, low: int, high: int)
    requires low <= high
    ensures forall f :: Settled(inputSum, amount, low, high) == Success(f) <==>
      Fixpoint(inputSum, amount, low, high, f) && inputSum >= amount + f
    ensures forall f, g ::
      Fixpoint(inputSum, amount, low, high, f) && Fixpoint(inputSum, amount, low, high, g) ==> f == g
    ensures Settled(inputSum, amount, low, high) == Failure(NotConverged) <==>
      forall f :: !Fixpoint(inputSum, amount, low, high, f)
    ensures Settled(inputSum, amount, low, high) == Failure(NotConverged) <==>
      low < high && ChangeWillBeIncluded(inputSum, amount, low) && !ChangeWillBeIncluded(inputSum, amount, high)
    ensures Settled(inputSum, amount, low, high) == Failure(InsufficientFunds) <==>
      exists f :: Fixpoint(inputSum, amount, low, high, f) && inputSum < amount + f
  {
    assert Fixpoint(inputSum, amount, low, high, low) <==> low == high || !ChangeWillBeIncluded(inputSum, amount, low);
    assert Fixpoint(inputSum, amount, low, high, high) <==> low == high || ChangeWillBeIncluded(inputSum, amount, high);
  }

  lemma {:induction false} SettlesOnPlan(k: Market, amount: int, recipients: nat, first: int, rounds: nat)
    requires Covers(k) && forall n: nat :: k.fee(n, recipients) <= k.fee(n, recipients + 1)
    requires PlanFrom(k, amount, recipients, first, rounds).Success?
    ensures var (selected, fee) := PlanFrom(k, amount, recipients, first, rounds).value;
            Settled(Total(selected), amount, k.fee(|selected|, recipients), k.fee(|selected|, recipients + 1))
            == Success(fee)
  {
    PlanIsSelfConsistent(k, amount, recipients, first, rounds);
    var (selected, fee) := PlanFrom(k, amount, recipients, first, rounds).value;
    SettledIsFixpoint(Total(selected), amount, k.fee(|selected|, recipients), k.fee(|selected|, recipients + 1));
  }

  /** On the planner's own selection with unchanged values the second run confirms the planner's fee. */
  lemma {:induction false} ReplanConfirmsPlan(utxos: seq<Utxo>, amount: int, rate: int, recipientOutputs: nat)
    requires Plan(utxos, amount, rate, recipientOutputs).Success?
    ensures var (selected, fee) := Plan(utxos, amount, rate, recipientOutputs).value;
            ReplanFee(selected, amount, rate, recipientOutputs) == Success(fee)
  {
    var k, recipients := MarketOf(utxos, rate), AtLeastOne(recipientOutputs);
    MarketCovers(utxos, rate, recipients);
    PlanIsSelfConsistent(k, amount, recipients, k.fee(1, recipients + 1), MAX_ROUNDS);
    SettlesOnPlan(k, amount, recipients, k.fee(1, recipients + 1), MAX_ROUNDS);
  }

  lemma {:induction false} MarketCovers(utxos: seq<Utxo>, rate: int, recipients: nat)
    ensures var k := MarketOf(utxos, rate);
            && Covers(k)
            && (forall n: nat :: k.fee(n, recipients) <= k.fee(n, recipients + 1))
            && (forall x: int :: k.select(x).Success? ==> k.select(x).value != [])
  {
    var k := MarketOf(utxos, rate);
    forall x: int | k.select(x).Success?
      ensures Total(k.select(x).value) >= x && k.select(x).value != []
    {
      CoinSelection.SelectionCovers(utxos, x);
    }
    forall n: nat
      ensures k.fee(n, recipients) <= k.fee(n, recipients + 1)
    {
      FeeMonotone(rate, n, recipients, n, recipients + 1);
    }
  }
}
