/** The planner round by round: its fees never fall, and when its eight rounds are enough. */
module PlannerRounds {
  import opened CoinSelection
  import opened FeePlan
  import opened Outcome
  import opened PlannerLimits
  import opened Wallet

  /** The fee that round `i` tries, if selection succeeded in every round before it. */
  function FeeTried(k: Market, amount: int, recipients: nat, i: nat): Option<int> {
    if i == 0 then Some(k.fee(1, recipients + 1))
    else
      match FeeTried(k, amount, recipients, i - 1)
      case None => None
      case Some(f) => FeeAfter(k, amount, recipients, f)
  }

  function FeeAfter(k: Market, amount: int, recipients: nat, fee: int): Option<int> {
    match k.select(amount + fee)
    case Failure(_) => None
    case Success(selected) => Some(NextFee(k, selected, amount, recipients, fee))
  }

  /** The planner is these rounds: as long as fees change, what remains to be done is the rest of the rounds. */
  lemma {:induction false} PlanFollowsRounds(k: Market, amount: int, recipients: nat, i: nat, rounds: nat)
    requires i <= rounds && FeeTried(k, amount, recipients, i).Some?
    requires forall j: nat :: j < i ==> FeeTried(k, amount, recipients, j) != FeeTried(k, amount, recipients, j + 1)
    ensures PlanFrom(k, amount, recipients, k.fee(1, recipients + 1), rounds)
         == PlanFrom(k, amount, recipients, FeeTried(k, amount, recipients, i).value, rounds - i)
  {
    if i > 0 {
      PlanFollowsRounds(k, amount, recipients, i - 1, rounds);
      assert FeeTried(k, amount, recipients, i - 1) != FeeTried(k, amount, recipients, i);
    }
  }

  // ---------------------------------------------------------------- fees never fall

  /** The round after this fee, if there is one, tries no less. */
  ghost predicate Up(k: Market, amount: int, recipients: nat, fee: int) {
    && fee > 0
    && var next := FeeAfter(k, amount, recipients, fee);
       next.Some? ==> fee <= next.value
  }

  lemma {:induction false} FirstIsUp(k: Market, amount: int, recipients: nat)
    requires Monotone(k) && Flat(k, recipients)
    ensures Up(k, amount, recipients, k.fee(1, recipients + 1))
  {
    var first := k.fee(1, recipients + 1);
    assert EstimateTxSize(1, recipients + 1) <= EstimateTxSize(1, recipients + 1);
    assert SameWithChange(k, recipients, k.select(amount + first));
    if k.select(amount + first).Success? {
      var n := |k.select(amount + first).value|;
      assert 0 < amount + first ==> 1 <= n;
      assert EstimateTxSize(1, recipients + 1) <= EstimateTxSize(n, recipients + 1);
    }
  }

  lemma {:induction false} UpStaysUp(k: Market, amount: int, recipients: nat, fee: int)
    requires Monotone(k) && Flat(k, recipients) && amount >= 0
    requires Up(k, amount, recipients, fee) && FeeAfter(k, amount, recipients, fee).Some?
    ensures Up(k, amount, recipients, FeeAfter(k, amount, recipients, fee).value)
  {
    var s := k.select(amount + fee).value;
    var next := NextFee(k, s, amount, recipients, fee);
    assert SameWithChange(k, recipients, k.select(amount + fee));
    assert SameWithChange(k, recipients, k.select(amount + next));
    if k.select(amount + next).Success? {
      var t := k.select(amount + next).value;
      assert EstimateTxSize(|s|, recipients) <= EstimateTxSize(|t|, recipients);
      assert k.fee(|s|, recipients) <= k.fee(|t|, recipients);
    }
  }

  ghost predicate KeepsUp(k: Market, amount: int, recipients: nat) {
    forall fee: int ::
      Up(k, amount, recipients, fee) && FeeAfter(k, amount, recipients, fee).Some? ==>
        Up(k, amount, recipients, FeeAfter(k, amount, recipients, fee).value)
  }

  lemma {:induction false} FlatKeepsUp(k: Market, amount: int, recipients: nat)
    requires Monotone(k) && Flat(k, recipients) && amount >= 0
    ensures KeepsUp(k, amount, recipients)
  {
    forall fee: int | Up(k, amount, recipients, fee) && FeeAfter(k, amount, recipients, fee).Some?
      ensures Up(k, amount, recipients, FeeAfter(k, amount, recipients, fee).value)
    {
      UpStaysUp(k, amount, recipients, fee);
    }
  }

  lemma {:induction false} EveryRoundIsUp(k: Market, amount: int, recipients: nat, i: nat)
    requires KeepsUp(k, amount, recipients) && Up(k, amount, recipients, k.fee(1, recipients + 1))
    ensures var f := FeeTried(k, amount, recipients, i); f.Some? ==> Up(k, amount, recipients, f.value)
  {
    if i > 0 {
      EveryRoundIsUp(k, amount, recipients, i - 1);
    }
  }

  /** Where a change output never changes the fee level, no round tries less than the one before it. */
  lemma {:induction false} FeesNeverFall(utxos: seq<Utxo>, amount: int, rate: int, recipients: nat, i: nat)
    requires NonNegative(utxos) && amount >= 0 && FlatWallet(utxos, rate, recipients)
    ensures var k := MarketOf(utxos, rate);
            var f, g := FeeTried(k, amount, recipients, i), FeeTried(k, amount, recipients, i + 1);
            f.Some? && g.Some? ==> f.value <= g.value
  {
    FlatWalletIsFlat(utxos, rate, recipients);
    MarketIsMonotone(utxos, rate);
    FirstIsUp(MarketOf(utxos, rate), amount, recipients);
    FlatKeepsUp(MarketOf(utxos, rate), amount, recipients);
    EveryRoundIsUp(MarketOf(utxos, rate), amount, recipients, i);
  }

  // ---------------------------------------------------------------- two fees that ask for each other

  lemma {:induction false} CycleNeverEnds(k: Market, amount: int, recipients: nat, f: int, g: int, rounds: nat)
    requires f != g
    requires FeeAfter(k, amount, recipients, f) == Some(g) && FeeAfter(k, amount, recipients, g) == Some(f)
    ensures PlanFrom(k, amount, recipients, f, rounds) == Failure(NotConverged)
    decreases rounds
  {
    if rounds > 0 {
      CycleNeverEnds(k, amount, recipients, g, f, rounds - 1);
    }
  }

  /** Thirteen coins and an amount for which the fees alternate, at a rate of `e`. */
  function AlternatingCoins(e: int): seq<Utxo>
    requires 0 <= 2 * e + 1 < TWO_63
  {
    EqualCoins(13, 2 * e + 1)
  }

  /** The market selects from these coins. */
  ghost predicate Offers(k: Market, coins: seq<Utxo>) {
    forall x: int {:trigger Selection(coins, x)} :: k.select(x) == Selection(coins, x)
  }

  lemma {:induction false} TakesAll(k: Market, coins: seq<Utxo>, value: I64, needed: int)
    requires Offers(k, coins) && |coins| == 13 && forall u :: u in coins ==> u.valueSats == value
    requires 0 < value && 12 * value < needed <= 13 * value
    ensures k.select(needed) == Success(coins)
  {
    AllThirteen(coins, value, needed);
  }

  /** At every rate the planner can alternate between two fees for ever. */
  lemma {:induction false} AlternatesForEver(rate: int, rounds: nat)
    requires 2 * EffectiveRate(rate) + 1 < TWO_63
    ensures var e := EffectiveRate(rate);
            PlanFrom(MarketOf(AlternatingCoins(e), rate), 23 * e + 13, 1, FeeForRate(rate, 1, 2), rounds)
            == Failure(NotConverged)
  {
    AlternatesAt(AlternatingCoins(EffectiveRate(rate)), rate, EffectiveRate(rate), rounds);
  }

  lemma {:induction false} AlternatesAt(coins: seq<Utxo>, rate: int, e: int, rounds: nat)
    requires e == EffectiveRate(rate) && 2 * e + 1 < TWO_63
    requires |coins| == 13 && forall u :: u in coins ==> u.valueSats == 2 * e + 1
    ensures PlanFrom(MarketOf(coins, rate), 23 * e + 13, 1, FeeForRate(rate, 1, 2), rounds) == Failure(NotConverged)
  {
    ThirteenFees(rate);
    AlternatesOn(MarketOf(coins, rate), coins, e, rounds);
  }

  lemma {:induction false} AlternatesOn(k: Market, coins: seq<Utxo>, e: int, rounds: nat)
    requires DUST_CHANGE_SATS < e && 2 * e + 1 < TWO_63 && Offers(k, coins)
    requires |coins| == 13 && forall u :: u in coins ==> u.valueSats == 2 * e + 1
    requires k.fee(1, 2) == e && k.fee(13, 1) == 2 * e && k.fee(13, 2) == 3 * e
    ensures PlanFrom(k, 23 * e + 13, 1, k.fee(1, 2), rounds) == Failure(NotConverged)
  {
    var amount := 23 * e + 13;
    EqualTotals(coins, 2 * e + 1);
    TakesAll(k, coins, 2 * e + 1, amount + e);
    TakesAll(k, coins, 2 * e + 1, amount + 2 * e);
    TakesAll(k, coins, 2 * e + 1, amount + 3 * e);
    Alternates(k, amount, e, coins, rounds);
  }

  lemma {:induction false} Alternates(k: Market, amount: int, e: int, coins: seq<Utxo>, rounds: nat)
    requires e > DUST_CHANGE_SATS && Total(coins) == amount + 3 * e
    requires k.fee(1, 2) == e && k.fee(|coins|, 1) == 2 * e && k.fee(|coins|, 2) == 3 * e
    requires k.select(amount + e) == Success(coins)
    requires k.select(amount + 2 * e) == Success(coins)
    requires k.select(amount + 3 * e) == Success(coins)
    ensures PlanFrom(k, amount, 1, k.fee(1, 2), rounds) == Failure(NotConverged)
  {
    if rounds > 0 {
      CycleNeverEnds(k, amount, 1, 3 * e, 2 * e, rounds - 1);
    }
  }

  lemma {:induction false} PlanInRounds(utxos: seq<Utxo>, amount: int, rate: int, rounds: nat)
    requires rounds == MAX_ROUNDS
    ensures Plan(utxos, amount, rate, 1) == PlanFrom(MarketOf(utxos, rate), amount, 1, FeeForRate(rate, 1, 2), rounds)
  {
  }

  /** No single-recipient payment from a wallet of up to `n` coins ends without convergence. */
  ghost predicate AlwaysSettles(n: nat, rate: int) {
    forall utxos: seq<Utxo>, amount: int ::
      |utxos| <= n && NonNegative(utxos) && amount >= 0 ==> Plan(utxos, amount, rate, 1) != Failure(NotConverged)
  }

  /** That holds for wallets of up to twelve coins and for no larger bound. */
  lemma {:induction false} AlwaysSettlesIff(n: nat, rate: int)
    requires 2 * EffectiveRate(rate) + 1 < TWO_63
    ensures AlwaysSettles(n, rate) <==> n <= 12
  {
    if n <= 12 {
      forall utxos: seq<Utxo>, amount: int | |utxos| <= n && NonNegative(utxos) && amount >= 0
        ensures Plan(utxos, amount, rate, 1) != Failure(NotConverged)
      {
        PlannerExactUpToTwelve(utxos, amount, rate);
      }
    } else {
      AlternatesInPlan(rate, MAX_ROUNDS);
    }
  }

  lemma {:induction false} AlternatesInPlan(rate: int, rounds: nat)
    requires 2 * EffectiveRate(rate) + 1 < TWO_63 && rounds == MAX_ROUNDS
    ensures var e := EffectiveRate(rate);
            && |AlternatingCoins(e)| == 13 && NonNegative(AlternatingCoins(e)) && 23 * e + 13 >= 0
            && Plan(AlternatingCoins(e), 23 * e + 13, rate, 1) == Failure(NotConverged)
  {
    var e := EffectiveRate(rate);
    AlternatesForEver(rate, rounds);
    PlanInRounds(AlternatingCoins(e), 23 * e + 13, rate, rounds);
  }
}
