/** For which wallets the planner's bound of eight rounds decides nothing, with one recipient. */
module PlannerBound {
  import opened CoinSelection
  import opened FeePlan
  import opened Outcome
  import opened PlannerLimits
  import opened PlannerRounds
  import opened Wallet

  /** Fees are ordered as their levels are. */
  ghost predicate Graded(k: Market) {
    forall n1: nat, m1: nat, n2: nat, m2: nat :: k.fee(n1, m1) <= k.fee(n2, m2) <==> Level(n1, m1) <= Level(n2, m2)
  }

  lemma {:induction false} MarketIsGraded(utxos: seq<Utxo>, rate: int)
    ensures Graded(MarketOf(utxos, rate))
  {
    var k := MarketOf(utxos, rate);
    forall n1: nat, m1: nat, n2: nat, m2: nat
      ensures k.fee(n1, m1) <= k.fee(n2, m2) <==> Level(n1, m1) <= Level(n2, m2)
    {
      FeesAsLevels(rate, n1, m1, n2, m2);
    }
  }

  lemma {:induction false} FeesAsLevels(rate: int, n1: nat, m1: nat, n2: nat, m2: nat)
    ensures FeeForRate(rate, n1, m1) <= FeeForRate(rate, n2, m2) <==> Level(n1, m1) <= Level(n2, m2)
  {
    if EstimateTxSize(n1, m1) <= EstimateTxSize(n2, m2) {
      FeeMonotone(rate, n1, m1, n2, m2);
    } else {
      FeeMonotone(rate, n2, m2, n1, m1);
    }
  }

  /** Every selection of this wallet has between one and 53 coins. */
  ghost predicate AtMost53(k: Market) {
    forall x: int :: k.select(x).Success? ==> 1 <= |k.select(x).value| <= 53
  }

  // ---------------------------------------------------------------- a fee that falls

  /** Levels of up to 53 inputs: at most 7, and a change output matters only below it. */
  lemma {:induction false} SmallLevels(n: nat)
    requires n <= 53
    ensures Level(n, 1) <= Level(n, 2) <= 7
    ensures Level(n, 1) != Level(n, 2) ==> Level(n, 1) == Level(n, 2) - 1 && Level(n, 2) <= 6
  {
    assert 46 <= n ==> n == 46 || 47 <= n;
  }

  /**
   * After a fee that was tried for `n` coins and change falls, the next round confirms the lower fee or
   * goes back: two rounds decide, and more change nothing.
   */
  lemma {:induction false} FallDecides(k: Market, amount: int, fee: int, n: nat, rounds: nat, more: nat)
    requires Monotone(k) && amount >= 0 && 0 < fee <= k.fee(n, 1) < k.fee(n, 2) && rounds >= 2
    requires k.select(amount + fee).Success? && |k.select(amount + fee).value| == n
    requires k.select(amount + k.fee(n, 2)).Success? && |k.select(amount + k.fee(n, 2)).value| == n
    requires FeeAfter(k, amount, 1, k.fee(n, 2)) == Some(k.fee(n, 1))
    ensures PlanFrom(k, amount, 1, k.fee(n, 2), rounds) == PlanFrom(k, amount, 1, k.fee(n, 2), rounds + more)
  {
    var low, high := k.fee(n, 1), k.fee(n, 2);
    assert k.select(amount + low).Success? && |k.select(amount + low).value| == n;
    if FeeAfter(k, amount, 1, low) == Some(high) {
      CycleNeverEnds(k, amount, 1, high, low, rounds);
      CycleNeverEnds(k, amount, 1, high, low, rounds + more);
    } else {
      assert FeeAfter(k, amount, 1, low) == Some(low);
    }
  }

  // ---------------------------------------------------------------- the climb

  /** Rounds beyond this many change nothing. */
  ghost predicate Decided(k: Market, amount: int, fee: int, rounds: nat, more: nat) {
    PlanFrom(k, amount, 1, fee, rounds) == PlanFrom(k, amount, 1, fee, rounds + more)
  }

  lemma {:induction false} DecidedBefore(k: Market, amount: int, fee: int, rounds: nat, more: nat)
    requires rounds > 0
    requires var next := FeeAfter(k, amount, 1, fee);
             next.Some? && next.value != fee ==> Decided(k, amount, next.value, rounds - 1, more)
    ensures Decided(k, amount, fee, rounds, more)
  {
  }

  /** One round up: the number of coins and outputs that the next fee pays for. */
  lemma {:induction false} NextLevel(k: Market, amount: int, a: nat, b: nat) returns (n: nat, m: nat)
    requires Graded(k) && AtMost53(k) && Up(k, amount, 1, k.fee(a, b))
    requires FeeAfter(k, amount, 1, k.fee(a, b)).Some? && FeeAfter(k, amount, 1, k.fee(a, b)).value != k.fee(a, b)
    ensures FeeAfter(k, amount, 1, k.fee(a, b)) == Some(k.fee(n, m)) && 0 < k.fee(a, b) < k.fee(n, m)
    ensures Level(a, b) < Level(n, m) <= 7 && n <= 53 && 1 <= m <= 2
    ensures k.select(amount + k.fee(a, b)).Success? && |k.select(amount + k.fee(a, b)).value| == n
  {
    var s := k.select(amount + k.fee(a, b)).value;
    n, m := |s|, OutputCount(Total(s), amount, k.fee(a, b), 1);
    SmallLevels(n);
  }

  /** From a level above which a change output costs one level, that level or less is still above the earlier fee. */
  lemma {:induction false} NotBelow(k: Market, a: nat, b: nat, n: nat)
    requires Graded(k) && Level(a, b) < Level(n, 2) == Level(n, 1) + 1
    ensures k.fee(a, b) <= k.fee(n, 1)
  {
  }

  /** One round up from level L: a higher level whose own next fee is no lower, or one where the outcome is decided. */
  lemma {:induction false} ClimbStep(k: Market, amount: int, a: nat, b: nat, rounds: nat, more: nat)
    returns (n: nat, m: nat)
    requires Monotone(k) && Graded(k) && AtMost53(k) && amount >= 0
    requires Level(a, b) <= 7 && rounds >= 8 - Level(a, b) && Up(k, amount, 1, k.fee(a, b))
    requires FeeAfter(k, amount, 1, k.fee(a, b)).Some? && FeeAfter(k, amount, 1, k.fee(a, b)).value != k.fee(a, b)
    ensures FeeAfter(k, amount, 1, k.fee(a, b)) == Some(k.fee(n, m)) && Level(a, b) < Level(n, m) <= 7
    ensures Up(k, amount, 1, k.fee(n, m)) || Decided(k, amount, k.fee(n, m), rounds - 1, more)
  {
    n, m := NextLevel(k, amount, a, b);
    if !Up(k, amount, 1, k.fee(n, m)) {
      FallShape(k, amount, k.fee(a, b), n, m);
      NotBelow(k, a, b, n);
      FallDecides(k, amount, k.fee(a, b), n, rounds - 1, more);
    }
  }

  /** From a fee of level L, whose next fee is no lower, at least 8 - L rounds are left. */
  ghost predicate Climbing(k: Market, amount: int, a: nat, b: nat, rounds: nat) {
    Level(a, b) <= 7 && rounds >= 8 - Level(a, b) && Up(k, amount, 1, k.fee(a, b))
  }

  ghost predicate GoesTo(k: Market, amount: int, next: int, n: nat, m: nat, rounds: nat, more: nat) {
    && next == k.fee(n, m) && rounds > 0
    && (Climbing(k, amount, n, m, rounds - 1) || Decided(k, amount, next, rounds - 1, more))
  }

  /** What ClimbStep finds. */
  ghost predicate StepsOn(k: Market, amount: int, a: nat, b: nat, rounds: nat, more: nat) {
    var next := FeeAfter(k, amount, 1, k.fee(a, b));
    next.Some? && next.value != k.fee(a, b) ==>
      exists n: nat, m: nat :: GoesTo(k, amount, next.value, n, m, rounds, more)
  }

  ghost predicate AlwaysStepsOn(k: Market, amount: int, more: nat) {
    forall a: nat, b: nat, rounds: nat {:trigger StepsOn(k, amount, a, b, rounds, more)} ::
      Climbing(k, amount, a, b, rounds) ==> StepsOn(k, amount, a, b, rounds, more)
  }

  lemma {:induction false} SmallWalletsStepOn(k: Market, amount: int, more: nat)
    requires Monotone(k) && Graded(k) && AtMost53(k) && amount >= 0
    ensures AlwaysStepsOn(k, amount, more)
  {
    forall a: nat, b: nat, rounds: nat | Climbing(k, amount, a, b, rounds)
      ensures StepsOn(k, amount, a, b, rounds, more)
    {
      var next := FeeAfter(k, amount, 1, k.fee(a, b));
      if next.Some? && next.value != k.fee(a, b) {
        var n, m := ClimbStep(k, amount, a, b, rounds, more);
        assert GoesTo(k, amount, next.value, n, m, rounds, more);
      }
    }
  }

  lemma {:induction false} ClimbDecides(k: Market, amount: int, a: nat, b: nat, rounds: nat, more: nat)
    requires AlwaysStepsOn(k, amount, more) && Climbing(k, amount, a, b, rounds)
    ensures Decided(k, amount, k.fee(a, b), rounds, more)
    decreases rounds
  {
    assert StepsOn(k, amount, a, b, rounds, more);
    var next := FeeAfter(k, amount, 1, k.fee(a, b));
    if next.Some? && next.value != k.fee(a, b) {
      var n: nat, m: nat :| GoesTo(k, amount, next.value, n, m, rounds, more);
      if Climbing(k, amount, n, m, rounds - 1) {
        ClimbDecides(k, amount, n, m, rounds - 1, more);
      }
    }
    DecidedBefore(k, amount, k.fee(a, b), rounds, more);
  }

  /** The next fee is followed by a lower one only if it paid for change that it then left no room for. */
  lemma {:induction false} FallShape(k: Market, amount: int, fee: int, n: nat, m: nat)
    requires Monotone(k) && Graded(k) && AtMost53(k) && amount >= 0 && 0 < fee < k.fee(n, m) && 1 <= m <= 2 && n <= 53
    requires k.select(amount + fee).Success? && |k.select(amount + fee).value| == n
    requires !Up(k, amount, 1, k.fee(n, m))
    ensures m == 2 && k.fee(n, 1) < k.fee(n, 2) && Level(n, 1) == Level(n, 2) - 1 && Level(n, 2) <= 6
    ensures k.select(amount + k.fee(n, 2)).Success? && |k.select(amount + k.fee(n, 2)).value| == n
    ensures FeeAfter(k, amount, 1, k.fee(n, 2)) == Some(k.fee(n, 1))
  {
    var t := k.select(amount + k.fee(n, m)).value;
    var m2 := OutputCount(Total(t), amount, k.fee(n, m), 1);
    assert n <= |t| && k.fee(|t|, m2) < k.fee(n, m);
    assert Level(|t|, m2) < Level(n, m);
    SmallLevels(n);
  }

  /** With at most 53 coins, more rounds than eight change nothing. */
  lemma {:induction false} EightRoundsDecide(utxos: seq<Utxo>, amount: int, rate: int, rounds: nat, more: nat)
    requires NonNegative(utxos) && |utxos| <= 53 && amount >= 0 && rounds == MAX_ROUNDS
    ensures Decided(MarketOf(utxos, rate), amount, FeeForRate(rate, 1, 2), rounds, more)
  {
    var k := MarketOf(utxos, rate);
    MarketIsMonotone(utxos, rate);
    MarketIsGraded(utxos, rate);
    forall x: int | k.select(x).Success?
      ensures 1 <= |k.select(x).value| <= 53
    {
      SelectionBounds(utxos, x);
    }
    StartDecides(k, amount, rounds, more);
  }

  lemma {:induction false} StartDecides(k: Market, amount: int, rounds: nat, more: nat)
    requires Monotone(k) && Graded(k) && AtMost53(k) && amount >= 0 && rounds == 8
    ensures Decided(k, amount, k.fee(1, 2), rounds, more)
  {
    assert EstimateTxSize(1, 2) <= EstimateTxSize(1, 2);
    assert Level(1, 2) == 0;
    assert Up(k, amount, 1, k.fee(1, 2)) by {
      var next := FeeAfter(k, amount, 1, k.fee(1, 2));
      if next.Some? {
        var s := k.select(amount + k.fee(1, 2)).value;
        assert Level(1, 2) <= Level(|s|, OutputCount(Total(s), amount, k.fee(1, 2), 1));
      }
    }
    SmallWalletsStepOn(k, amount, more);
    ClimbDecides(k, amount, 1, 2, rounds, more);
  }

  // ---------------------------------------------------------------- 54 coins

  lemma {:induction false} SortedAlready(s: seq<Utxo>)
    requires Ascending(s)
    ensures SortByValue(s) == s
  {
    if s != [] {
      SortedAlready(s[1..]);
      assert s == [s[0]] + s[1..];
    }
  }

  /** How many of the ascending coins a target takes, if no single one covers it. */
  lemma {:induction false} CountBetween(coins: seq<Utxo>, needed: int, lo: nat, hi: nat)
    requires NonNegative(coins) && Ascending(coins) && needed > 0 && lo < hi <= |coins|
    requires forall u :: u in coins ==> u.valueSats < needed
    requires Total(coins[..lo]) < needed <= Total(coins[..hi])
    ensures Selection(coins, needed).Success? && lo < |Selection(coins, needed).value| <= hi
  {
    PrefixTotals(coins, hi, |coins|);
    assert coins[..|coins|] == coins;
    SelectionComplete(coins, needed);
    SelectionIsBest(coins, needed);
    SortedAlready(coins);
    PrefixBetween(coins, |Selection(coins, needed).value|, needed, lo, hi);
  }

  lemma {:induction false} PrefixBetween(coins: seq<Utxo>, n: nat, needed: int, lo: nat, hi: nat)
    requires NonNegative(coins) && n <= |coins| && lo < hi <= |coins|
    requires Total(coins[..lo]) < needed <= Total(coins[..hi])
    requires Total(coins[..n]) >= needed && forall k :: 0 <= k < n ==> Total(coins[..n][..k]) < needed
    ensures lo < n <= hi
  {
    if n <= lo {
      PrefixTotals(coins, n, lo);
    }
    var h := if hi <= n then hi else n;
    assert coins[..n][..h] == coins[..h];
  }

  /** The i-th round needs more than this many coins, and at most that many. */
  function Lo(i: nat): nat {
    if i == 0 then 6 else if i == 1 then 13 else if i == 2 then 19 else if i == 3 then 26
    else if i == 4 then 33 else if i == 5 then 40 else if i == 6 then 46 else 53
  }

  function Hi(i: nat): nat {
    if i == 0 then 12 else if i == 1 then 19 else if i == 2 then 26 else if i == 3 then 33
    else if i == 4 then 39 else if i == 5 then 46 else if i == 6 then 53 else 54
  }

  lemma {:induction false} LevelOfRound(i: nat, n: nat, m: nat)
    requires i <= 8 && Lo(i) < n <= Hi(i) && 1 <= m <= 2
    ensures Level(n, m) == if i < 8 then i + 1 else 8
  {
    if i == 0 {
    } else if i <= 3 {
      assert i == 1 || i == 2 || i == 3;
    } else {
      assert i == 4 || i == 5 || i == 6 || i == 7 || i == 8;
    }
  }

  /** Fifty-three coins of 2/13 of the rate and one of almost ten times that. */
  ghost predicate Ladder(coins: seq<Utxo>, e: int, v: int) {
    && 13 * v <= 2 * e < 13 * v + 13 && v >= 53
    && |coins| == 54 && (forall i :: 0 <= i < 53 ==> coins[i].valueSats == v) && coins[53].valueSats == 10 * v - 1
  }

  function LadderAmount(e: int, v: int): int { 10 * v - e }

  lemma {:induction false} LadderPrefix(coins: seq<Utxo>, e: int, v: int, n: nat)
    requires Ladder(coins, e, v) && n <= 54
    ensures Total(coins[..n]) == if n <= 53 then n * v else 63 * v - 1
  {
    if n <= 53 {
      EqualTotals(coins[..n], v);
    } else {
      EqualTotals(coins[..53], v);
      assert coins[..54] == coins[..53] + [coins[53]];
      TotalAppend(coins[..53], [coins[53]]);
    }
  }

  lemma {:induction false} LadderTarget(e: int, v: int, i: nat)
    requires 13 * v <= 2 * e < 13 * v + 13 && v >= 53 && i <= 8
    ensures Lo(i) * v < 10 * v + i * e <= if Hi(i) <= 53 then Hi(i) * v else 63 * v - 1
  {
    if i == 0 {
    } else if i == 1 {
    } else if i == 2 {
    } else if i == 3 {
    } else if i == 4 {
    } else if i == 5 {
    } else if i == 6 {
    } else if i == 7 {
    } else {
      assert i == 8;
    }
  }

  lemma {:induction false} LadderCount(coins: seq<Utxo>, e: int, v: int, i: nat)
    requires Ladder(coins, e, v) && i <= 8
    ensures var r := Selection(coins, 10 * v + i * e); r.Success? && Lo(i) < |r.value| <= Hi(i)
  {
    LadderTarget(e, v, i);
    LadderPrefix(coins, e, v, Lo(i));
    LadderPrefix(coins, e, v, Hi(i));
    assert i * e >= 0;
    CountBetween(coins, 10 * v + i * e, Lo(i), Hi(i));
  }

  lemma {:induction false} LadderNext(coins: seq<Utxo>, rate: int, v: int, i: nat)
    requires Ladder(coins, EffectiveRate(rate), v) && i <= 8
    ensures var e := EffectiveRate(rate);
            FeeAfter(MarketOf(coins, rate), LadderAmount(e, v), 1, e * (i + 1))
            == Some(e * (if i < 8 then i + 2 else 9))
  {
    var e := EffectiveRate(rate);
    assert LadderAmount(e, v) + e * (i + 1) == 10 * v + i * e;
    LadderCount(coins, e, v, i);
    var s := Selection(coins, 10 * v + i * e).value;
    var m := OutputCount(Total(s), LadderAmount(e, v), e * (i + 1), 1);
    LevelOfRound(i, |s|, m);
    FeeClosedForm(rate, |s|, m);
  }

  /** Eight rounds end without convergence although nine would settle on a fee that pays for itself. */
  lemma {:induction false} LadderNeedsNine(coins: seq<Utxo>, rate: int, v: int, rounds: nat)
    requires Ladder(coins, EffectiveRate(rate), v) && rounds == MAX_ROUNDS
    ensures var k, amount := MarketOf(coins, rate), LadderAmount(EffectiveRate(rate), v);
            && amount >= 0
            && SelfConsistent(k, amount, 1, 9 * EffectiveRate(rate))
            && PlanFrom(k, amount, 1, FeeForRate(rate, 1, 2), rounds) == Failure(NotConverged)
            && PlanFrom(k, amount, 1, FeeForRate(rate, 1, 2), rounds + 1).Success?
  {
    var k, e := MarketOf(coins, rate), EffectiveRate(rate);
    var amount := LadderAmount(e, v);
    FeeClosedForm(rate, 1, 2);
    assert Level(1, 2) == 0;
    forall i: nat | i < 8
      ensures NextMultiple(k, amount, e, i)
    {
      LadderNext(coins, rate, v, i);
    }
    LadderNext(coins, rate, v, 8);
    NineRounds(k, amount, e, rounds);
  }

  ghost predicate NextMultiple(k: Market, amount: int, e: int, i: nat) {
    FeeAfter(k, amount, 1, e * (i + 1)) == Some(e * (i + 2))
  }

  /** Each round tries the next multiple of the rate. */
  lemma {:induction false} MultiplesTried(k: Market, amount: int, e: int, i: nat)
    requires k.fee(1, 2) == e && i <= 8 && forall j: nat :: j < 8 ==> NextMultiple(k, amount, e, j)
    ensures FeeTried(k, amount, 1, i) == Some(e * (i + 1))
  {
    if i > 0 {
      MultiplesTried(k, amount, e, i - 1);
      assert NextMultiple(k, amount, e, i - 1);
    }
  }

  lemma {:induction false} NineRounds(k: Market, amount: int, e: int, rounds: nat)
    requires e > 0 && rounds == 8 && k.fee(1, 2) == e
    requires forall i: nat :: i < 8 ==> NextMultiple(k, amount, e, i)
    requires FeeAfter(k, amount, 1, e * 9) == Some(e * 9)
    ensures SelfConsistent(k, amount, 1, 9 * e)
    ensures PlanFrom(k, amount, 1, k.fee(1, 2), rounds) == Failure(NotConverged)
    ensures PlanFrom(k, amount, 1, k.fee(1, 2), rounds + 1).Success?
  {
    forall j: nat | j < 8
      ensures FeeTried(k, amount, 1, j) != FeeTried(k, amount, 1, j + 1)
    {
      MultiplesTried(k, amount, e, j);
      MultiplesTried(k, amount, e, j + 1);
      assert e * (j + 1) < e * (j + 2);
    }
    MultiplesTried(k, amount, e, 8);
    assert FeeTried(k, amount, 1, 8) == Some(9 * e);
    PlanFollowsRounds(k, amount, 1, 8, rounds);
    PlanFollowsRounds(k, amount, 1, 8, rounds + 1);
  }

  // ---------------------------------------------------------------- the exact bound

  /** The planner for one recipient with this many rounds; it has eight. */
  function Planned(utxos: seq<Utxo>, amount: int, rate: int, rounds: nat): Result<(seq<Utxo>, int)> {
    PlanFrom(MarketOf(utxos, rate), amount, 1, FeeForRate(rate, 1, 2), rounds)
  }

  ghost predicate SameWithMore(utxos: seq<Utxo>, amount: int, rate: int, rounds: nat, more: nat) {
    NonNegative(utxos) && amount >= 0 ==>
      Planned(utxos, amount, rate, rounds) == Planned(utxos, amount, rate, rounds + more)
  }

  /** For wallets of up to `n` coins, rounds beyond this many never change the outcome. */
  ghost predicate RoundsSuffice(n: nat, rate: int, rounds: nat) {
    forall utxos: seq<Utxo>, amount: int, more: nat :: |utxos| <= n ==> SameWithMore(utxos, amount, rate, rounds, more)
  }

  /** Eight rounds are enough for up to 53 coins and for no larger wallet. */
  lemma {:induction false} EightRoundsSufficeIff(n: nat, rate: int, rounds: nat)
    requires rounds == MAX_ROUNDS && 2 * EffectiveRate(rate) + 1 < TWO_63
    ensures RoundsSuffice(n, rate, rounds) <==> n <= 53
  {
    if n <= 53 {
      forall utxos: seq<Utxo>, amount: int, more: nat | |utxos| <= n
        ensures SameWithMore(utxos, amount, rate, rounds, more)
      {
        if NonNegative(utxos) && amount >= 0 {
          EightRoundsDecide(utxos, amount, rate, rounds, more);
        }
      }
    } else {
      var coins, amount := LadderCoins(rate, rounds);
      assert |coins| <= n && !SameWithMore(coins, amount, rate, rounds, 1);
    }
  }

  /** At every rate, 54 coins and an amount for which a ninth round makes the difference. */
  lemma {:induction false} LadderCoins(rate: int, rounds: nat) returns (coins: seq<Utxo>, amount: int)
    requires rounds == MAX_ROUNDS && 2 * EffectiveRate(rate) + 1 < TWO_63
    ensures |coins| == 54 && NonNegative(coins) && amount >= 0
    ensures Planned(coins, amount, rate, rounds) == Failure(NotConverged)
    ensures Planned(coins, amount, rate, rounds + 1).Success?
    ensures Affordable(coins, amount, rate, 9 * EffectiveRate(rate))
  {
    var e := EffectiveRate(rate);
    var v := 2 * e / 13;
    amount := LadderAmount(e, v);
    coins := seq(54, i requires 0 <= i < 54 => Utxo("", i, if i < 53 then v else 10 * v - 1, 1, "", ""));
    LadderNeedsNine(coins, rate, v, rounds);
  }
}
