/** Where the planner finds every affordable single-recipient plan, and where it first misses one. */
module PlannerLimits {
  import opened Bytes
  import opened CoinSelection
  import opened FeePlan
  import opened Outcome
  import opened Wallet

  ghost predicate Affordable(utxos: seq<Utxo>, amount: int, rate: int, fee: int) {
    SelfConsistent(MarketOf(utxos, rate), amount, 1, fee)
  }

  /** Dropping the change output never lowers the fee, for wallets of up to `n` coins. */
  ghost predicate FlatUpTo(rate: int, n: nat) {
    forall count: nat :: 1 <= count <= n ==> FeeForRate(rate, count, 1) == FeeForRate(rate, count, 2)
  }

  /** At every rate the fee ignores the change output up to exactly twelve inputs. */
  lemma {:induction false} FlatUpToTwelve(rate: int, n: nat)
    ensures FlatUpTo(rate, n) <==> n <= 12
  {
    forall count: nat
      ensures FeeForRate(rate, count, 1) == FeeForRate(rate, count, 2) <==> Level(count, 1) == Level(count, 2)
    {
      FeeMonotone(rate, count, 1, count, 2);
    }
    assert Level(13, 1) == 1 && Level(13, 2) == 2;
    if n <= 12 {
      forall count: nat | 1 <= count <= n
        ensures Level(count, 1) == Level(count, 2)
      {
        assert count <= 6 ==> 48 + 148 * count < 966 && 82 + 148 * count < 1000;
      }
    } else {
      assert FeeForRate(rate, 13, 1) != FeeForRate(rate, 13, 2);
    }
  }

  /** Up to twelve inputs there are two possible fees, decided by the number of inputs alone. */
  lemma {:induction false} SmallFees(rate: int, n: nat, m: nat)
    requires 1 <= n <= 12 && 1 <= m <= 2
    ensures FeeForRate(rate, n, m) == if n <= 6 then EffectiveRate(rate) else 2 * EffectiveRate(rate)
  {
    FeeClosedForm(rate, n, m);
    assert Level(n, m) == if n <= 6 then 0 else 1;
  }

  // ---------------------------------------------------------------- least fixpoint, any number of recipients

  /** No selection of this wallet costs more with a change output than without. */
  ghost predicate Flat(k: Market, recipients: nat) {
    forall x: int {:trigger k.select(x)} :: SameWithChange(k, recipients, k.select(x))
  }

  ghost predicate SameWithChange(k: Market, recipients: nat, selection: Result<seq<Utxo>>) {
    selection.Success? ==> k.fee(|selection.value|, recipients) == k.fee(|selection.value|, recipients + 1)
  }

  ghost predicate FlatWallet(utxos: seq<Utxo>, rate: int, recipients: nat) {
    forall count: nat :: 1 <= count <= |utxos| ==>
      FeeForRate(rate, count, recipients) == FeeForRate(rate, count, recipients + 1)
  }

  lemma {:induction false} FlatWalletIsFlat(utxos: seq<Utxo>, rate: int, recipients: nat)
    requires NonNegative(utxos) && FlatWallet(utxos, rate, recipients)
    ensures Flat(MarketOf(utxos, rate), recipients)
  {
    var k := MarketOf(utxos, rate);
    forall x: int
      ensures SameWithChange(k, recipients, k.select(x))
    {
      if k.select(x).Success? {
        SelectionBounds(utxos, x);
      }
    }
  }

  /** Missing funds only if no fee pays for itself; a planned fee is the least one that does. */
  ghost predicate LeastOrNone(k: Market, amount: int, recipients: nat, r: Result<(seq<Utxo>, int)>) {
    && (r.Success? ==> SelfConsistent(k, amount, recipients, r.value.1))
    && forall f :: SelfConsistent(k, amount, recipients, f) ==>
         r != Failure(InsufficientFunds) && (r.Success? ==> r.value.1 <= f)
  }

  lemma {:induction false} FlatMarketLeast(k: Market, amount: int, recipients: nat)
    requires Monotone(k) && Flat(k, recipients) && amount >= 0
    ensures LeastOrNone(k, amount, recipients, PlanFrom(k, amount, recipients, k.fee(1, recipients + 1), MAX_ROUNDS))
  {
    var r := PlanFrom(k, amount, recipients, k.fee(1, recipients + 1), MAX_ROUNDS);
    if r.Success? {
      PlanIsSelfConsistent(k, amount, recipients, k.fee(1, recipients + 1), MAX_ROUNDS);
    }
    forall f | SelfConsistent(k, amount, recipients, f)
      ensures r != Failure(InsufficientFunds) && (r.Success? ==> r.value.1 <= f)
    {
      assert SameWithChange(k, recipients, k.select(amount + f));
      FirstFeeIsBelow(k, amount, recipients, f);
      PlanStaysBelow(k, amount, recipients, k.fee(1, recipients + 1), MAX_ROUNDS, f);
    }
  }

  /** Where a change output never changes the fee level, the planner climbs to the least fixpoint. */
  lemma {:induction false} FlatPlanIsLeast(utxos: seq<Utxo>, amount: int, rate: int, recipientOutputs: nat)
    requires NonNegative(utxos) && amount >= 0 && FlatWallet(utxos, rate, AtLeastOne(recipientOutputs))
    ensures LeastOrNone(MarketOf(utxos, rate), amount, AtLeastOne(recipientOutputs),
                        Plan(utxos, amount, rate, recipientOutputs))
  {
    FlatWalletIsFlat(utxos, rate, AtLeastOne(recipientOutputs));
    MarketIsMonotone(utxos, rate);
    FlatMarketLeast(MarketOf(utxos, rate), amount, AtLeastOne(recipientOutputs));
  }

  // ---------------------------------------------------------------- up to twelve coins

  /** A wallet whose every selection costs `e` or `2 * e`, change or no change. */
  ghost predicate TwoLevels(k: Market, e: int) {
    && Monotone(k) && k.fee(1, 2) == e > 0
    && forall x: int {:trigger k.select(x)} :: OneLevel(k, e, k.select(x))
  }

  ghost predicate OneLevel(k: Market, e: int, selection: Result<seq<Utxo>>) {
    match selection
    case Failure(error) => error == InsufficientFunds
    case Success(s) => k.fee(|s|, 1) == k.fee(|s|, 2) && (k.fee(|s|, 1) == e || k.fee(|s|, 1) == 2 * e)
  }

  /** The planner's outcome is the least fee that pays for itself, or missing funds if there is none. */
  ghost predicate Exact(k: Market, amount: int, r: Result<(seq<Utxo>, int)>) {
    && (r.Success? <==> exists f :: SelfConsistent(k, amount, 1, f))
    && (r.Success? ==> SelfConsistent(k, amount, 1, r.value.1))
    && (r.Success? ==> forall f :: SelfConsistent(k, amount, 1, f) ==> r.value.1 <= f)
    && (r.Failure? ==> r.error == InsufficientFunds)
  }

  lemma {:induction false} TwoLevelsExact(k: Market, amount: int, e: int)
    requires TwoLevels(k, e) && amount >= 0
    ensures Exact(k, amount, PlanFrom(k, amount, 1, k.fee(1, 2), MAX_ROUNDS))
  {
    var r := PlanFrom(k, amount, 1, k.fee(1, 2), MAX_ROUNDS);
    if r.Success? {
      PlanIsSelfConsistent(k, amount, 1, k.fee(1, 2), MAX_ROUNDS);
    } else {
      TwoLevelsSettle(k, amount, e);
    }
    forall f | SelfConsistent(k, amount, 1, f)
      ensures r != Failure(InsufficientFunds) && (r.Success? ==> r.value.1 <= f)
    {
      TwoLevelsBelow(k, amount, e, f);
    }
  }

  lemma {:induction false} TwoLevelsBelow(k: Market, amount: int, e: int, f: int)
    requires TwoLevels(k, e) && amount >= 0 && SelfConsistent(k, amount, 1, f)
    ensures var r := PlanFrom(k, amount, 1, k.fee(1, 2), MAX_ROUNDS);
            r != Failure(InsufficientFunds) && (r.Success? ==> r.value.1 <= f)
  {
    assert OneLevel(k, e, k.select(amount + f));
    FirstFeeIsBelow(k, amount, 1, f);
    PlanStaysBelow(k, amount, 1, k.fee(1, 2), MAX_ROUNDS, f);
  }

  /** The iteration rises at most once, so it never runs out of rounds. */
  lemma {:induction false} TwoLevelsSettle(k: Market, amount: int, e: int)
    requires TwoLevels(k, e) && amount >= 0
    ensures var r := PlanFrom(k, amount, 1, k.fee(1, 2), MAX_ROUNDS);
            r.Failure? ==> r.error == InsufficientFunds
  {
    assert OneLevel(k, e, k.select(amount + e));
    if k.select(amount + e).Success? {
      RoundUnfolds(k, amount, 1, e, MAX_ROUNDS);
      if NextFee(k, k.select(amount + e).value, amount, 1, e) != e {
        SecondRoundSettles(k, amount, e);
      }
    }
  }

  /** A second round at twice the lower fee stays there. */
  lemma {:induction false} SecondRoundSettles(k: Market, amount: int, e: int)
    requires TwoLevels(k, e) && amount >= 0 && k.select(amount + e).Success?
    requires k.fee(|k.select(amount + e).value|, 1) == 2 * e
    ensures var r := PlanFrom(k, amount, 1, 2 * e, MAX_ROUNDS - 1);
            r.Failure? ==> r.error == InsufficientFunds
  {
    assert OneLevel(k, e, k.select(amount + 2 * e));
    if k.select(amount + 2 * e).Success? {
      RoundUnfolds(k, amount, 1, 2 * e, MAX_ROUNDS - 1);
      var s, t := k.select(amount + e).value, k.select(amount + 2 * e).value;
      assert EstimateTxSize(|s|, 1) <= EstimateTxSize(|t|, 1);
      assert k.fee(|s|, 1) <= k.fee(|t|, 1);
    }
  }

  lemma {:induction false} RoundUnfolds(k: Market, amount: int, recipients: nat, fee: int, rounds: nat)
    requires k.select(amount + fee).Success? && rounds > 0
    ensures var selected := k.select(amount + fee).value;
            var next := NextFee(k, selected, amount, recipients, fee);
            PlanFrom(k, amount, recipients, fee, rounds) ==
            if next == fee then Success((selected, fee))
            else PlanFrom(k, amount, recipients, next, rounds - 1)
  {
  }

  lemma {:induction false} TwelveCoinsTwoLevels(utxos: seq<Utxo>, rate: int)
    requires NonNegative(utxos) && |utxos| <= 12
    ensures TwoLevels(MarketOf(utxos, rate), EffectiveRate(rate))
  {
    var k, e := MarketOf(utxos, rate), EffectiveRate(rate);
    MarketIsMonotone(utxos, rate);
    SmallFees(rate, 1, 2);
    forall x: int
      ensures OneLevel(k, e, k.select(x))
    {
      SelectionOneLevel(utxos, rate, x);
    }
  }

  lemma {:induction false} SelectionOneLevel(utxos: seq<Utxo>, rate: int, x: int)
    requires NonNegative(utxos) && |utxos| <= 12
    ensures OneLevel(MarketOf(utxos, rate), EffectiveRate(rate), Selection(utxos, x))
  {
    SelectionFails(utxos, x);
    if Selection(utxos, x).Success? {
      SelectionBounds(utxos, x);
      SmallFees(rate, |Selection(utxos, x).value|, 1);
      SmallFees(rate, |Selection(utxos, x).value|, 2);
    }
  }

  lemma {:induction false} SelectionBounds(utxos: seq<Utxo>, needed: int)
    requires NonNegative(utxos) && Selection(utxos, needed).Success?
    ensures 1 <= |Selection(utxos, needed).value| <= |utxos|
  {
    SelectionCovers(utxos, needed);
    SelectionMonotone(utxos, needed, needed);
  }

  lemma {:induction false} SelectionFails(utxos: seq<Utxo>, needed: int)
    ensures Selection(utxos, needed).Failure? ==> Selection(utxos, needed).error == InsufficientFunds
  {
  }

  /**
   * With at most twelve coins the planner is exact: it succeeds if and only if some fee pays for
   * itself, and then returns the least such fee.
   */
  lemma {:induction false} PlannerExactUpToTwelve(utxos: seq<Utxo>, amount: int, rate: int)
    requires NonNegative(utxos) && |utxos| <= 12 && amount >= 0
    ensures Exact(MarketOf(utxos, rate), amount, Plan(utxos, amount, rate, 1))
  {
    TwelveCoinsTwoLevels(utxos, rate);
    TwoLevelsExact(MarketOf(utxos, rate), amount, EffectiveRate(rate));
  }

  // ---------------------------------------------------------------- thirteen coins

  function EqualCoins(count: nat, value: I64): seq<Utxo>
    requires count < TWO_32
  {
    seq(count, i requires 0 <= i < count => Utxo("", i, value, 1, "", ""))
  }

  lemma {:induction false} EqualTotals(s: seq<Utxo>, value: I64)
    requires forall u :: u in s ==> u.valueSats == value
    ensures Total(s) == |s| * value
  {
    if s != [] {
      EqualTotals(s[1..], value);
      assert |s| * value == value + (|s| - 1) * value;
    }
  }

  lemma {:induction false} EqualValues(s: seq<Utxo>, value: I64)
    requires forall u :: u in s ==> u.valueSats == value
    ensures WithValue(s, value) == s
  {
    if s != [] {
      EqualValues(s[1..], value);
      assert s == [s[0]] + s[1..];
    }
  }

  /** Thirteen equal coins are taken in order, all of them if twelve do not suffice. */
  lemma {:induction false} AllThirteen(coins: seq<Utxo>, value: I64, needed: int)
    requires |coins| == 13 && forall u :: u in coins ==> u.valueSats == value
    requires 0 < value && 12 * value < needed <= 13 * value
    ensures Selection(coins, needed) == Success(coins)
  {
    SortedEqualCoins(coins, value);
    EqualTotals(coins, value);
    SelectionComplete(coins, needed);
    SelectionIsBest(coins, needed);
    var selected := Selection(coins, needed).value;
    assert coins[0] in coins;
    EqualTotals(coins[..12], value);
    if |selected| <= 12 {
      PrefixTotals(coins, |selected|, 12);
      assert false;
    }
    assert selected == coins;
  }

  lemma {:induction false} SortedEqualCoins(coins: seq<Utxo>, value: I64)
    requires forall u :: u in coins ==> u.valueSats == value
    ensures SortByValue(coins) == coins
  {
    SortFacts(coins, value);
    SortedLength(coins);
    EqualValues(coins, value);
    EqualValues(SortByValue(coins), value);
  }

  lemma {:induction false} JumpMisses(k: Market, amount: int, e: int)
    requires e > 0 && k.fee(1, 2) == e && k.select(amount + e).Success?
    requires k.fee(|k.select(amount + e).value|, 2) == 3 * e
    requires ChangeWillBeIncluded(Total(k.select(amount + e).value), amount, e)
    requires k.select(amount + 3 * e) == Failure(InsufficientFunds)
    ensures PlanFrom(k, amount, 1, k.fee(1, 2), MAX_ROUNDS) == Failure(InsufficientFunds)
  {
    RoundUnfolds(k, amount, 1, e, MAX_ROUNDS);
  }

  lemma {:induction false} ThirteenFees(rate: int)
    ensures FeeForRate(rate, 1, 2) == EffectiveRate(rate)
    ensures FeeForRate(rate, 13, 1) == 2 * EffectiveRate(rate)
    ensures FeeForRate(rate, 13, 2) == 3 * EffectiveRate(rate)
  {
    FeeClosedForm(rate, 1, 2);
    FeeClosedForm(rate, 13, 1);
    FeeClosedForm(rate, 13, 2);
  }

  /**
   * At every rate there are thirteen coins for which the planner reports missing funds although
   * twice the rate is a fee that pays for itself: it jumps over that fee to the one with change.
   */
  lemma {:induction false} PlannerMissesAtThirteen(rate: int) returns (utxos: seq<Utxo>, amount: int)
    requires rate < TWO_63 - 1
    ensures NonNegative(utxos) && |utxos| == 13 && amount >= 0
    ensures Affordable(utxos, amount, rate, 2 * EffectiveRate(rate))
    ensures Plan(utxos, amount, rate, 1) == Failure(InsufficientFunds)
  {
    var e := EffectiveRate(rate);
    utxos, amount := EqualCoins(13, e + 1), 13 * (e + 1) - 2 * e;
    EqualTotals(utxos, e + 1);
    AllThirteen(utxos, e + 1, amount + e);
    AllThirteen(utxos, e + 1, amount + 2 * e);
    BeyondTotal(utxos, amount + 3 * e);
    ThirteenMiss(utxos, amount, rate, e);
  }

  lemma {:induction false} ThirteenMiss(coins: seq<Utxo>, amount: int, rate: int, e: int)
    requires e == EffectiveRate(rate) && |coins| == 13 && Total(coins) == amount + 2 * e
    requires Selection(coins, amount + e) == Success(coins) && Selection(coins, amount + 2 * e) == Success(coins)
    requires Selection(coins, amount + 3 * e) == Failure(InsufficientFunds)
    ensures Affordable(coins, amount, rate, 2 * e)
    ensures Plan(coins, amount, rate, 1) == Failure(InsufficientFunds)
  {
    ThirteenFees(rate);
    JumpMisses(MarketOf(coins, rate), amount, e);
    AllForNoChange(MarketOf(coins, rate), amount, e, coins);
  }

  lemma {:induction false} BeyondTotal(utxos: seq<Utxo>, needed: int)
    requires NonNegative(utxos) && needed > Total(utxos)
    ensures Selection(utxos, needed) == Failure(InsufficientFunds)
  {
    SelectionComplete(utxos, needed);
    SelectionFails(utxos, needed);
  }

  lemma {:induction false} AllForNoChange(k: Market, amount: int, e: int, coins: seq<Utxo>)
    requires k.select(amount + 2 * e) == Success(coins) && Total(coins) == amount + 2 * e
    requires k.fee(|coins|, 1) == 2 * e
    ensures SelfConsistent(k, amount, 1, 2 * e)
  {
  }

  /** No affordable single-recipient payment from a wallet of up to `n` coins is turned away. */
  ghost predicate NeverTurnsAway(n: nat, rate: int) {
    forall utxos: seq<Utxo>, amount: int ::
      |utxos| <= n && NonNegative(utxos) && amount >= 0 && (exists f :: Affordable(utxos, amount, rate, f)) ==>
      Plan(utxos, amount, rate, 1).Success?
  }

  /** That promise holds for wallets of up to twelve coins and for no larger bound. */
  lemma {:induction false} NeverTurnsAwayIff(n: nat, rate: int)
    requires rate < TWO_63 - 1
    ensures NeverTurnsAway(n, rate) <==> n <= 12
  {
    if n <= 12 {
      forall utxos: seq<Utxo>, amount: int
        | |utxos| <= n && NonNegative(utxos) && amount >= 0 && exists f :: Affordable(utxos, amount, rate, f)
        ensures Plan(utxos, amount, rate, 1).Success?
      {
        PlannerExactUpToTwelve(utxos, amount, rate);
      }
    } else {
      var utxos, amount := PlannerMissesAtThirteen(rate);
    }
  }
}
