/** Choosing coins for a target: the smallest single coin that suffices, else ascending accumulation. */
module CoinSelection {
  import opened Outcome
  import opened Wallet

  predicate NonNegative(utxos: seq<Utxo>) {
    forall u :: u in utxos ==> u.valueSats >= 0
  }

  // ---------------------------------------------------------------- stable sort by value

  function InsertByValue(u: Utxo, sorted: seq<Utxo>): seq<Utxo> {
    if sorted == [] || u.valueSats <= sorted[0].valueSats then [u] + sorted
    else [sorted[0]] + InsertByValue(u, sorted[1..])
  }

  function SortByValue(utxos: seq<Utxo>): seq<Utxo> {
    if utxos == [] then [] else InsertByValue(utxos[0], SortByValue(utxos[1..]))
  }

  ghost predicate Ascending(s: seq<Utxo>) {
    forall i, j :: 0 <= i < j < |s| ==> s[i].valueSats <= s[j].valueSats
  }

  /** The coins of one value, in their order. */
  function WithValue(s: seq<Utxo>, v: int): seq<Utxo> {
    if s == [] then [] else (if s[0].valueSats == v then [s[0]] else []) + WithValue(s[1..], v)
  }

  lemma {:induction false} InsertPermutes(u: Utxo, s: seq<Utxo>)
    ensures multiset(InsertByValue(u, s)) == multiset{u} + multiset(s)
  {
    if s != [] && u.valueSats > s[0].valueSats {
      InsertPermutes(u, s[1..]);
      assert s == [s[0]] + s[1..];
    }
  }

  lemma {:induction false} InsertSorts(u: Utxo, s: seq<Utxo>)
    requires Ascending(s)
    ensures Ascending(InsertByValue(u, s))
  {
    if s != [] && u.valueSats > s[0].valueSats {
      InsertSorts(u, s[1..]);
      var tail := InsertByValue(u, s[1..]);
      forall i | 0 <= i < |tail|
        ensures s[0].valueSats <= tail[i].valueSats
      {
        InsertPermutes(u, s[1..]);
        assert tail[i] in multiset(tail);
        assert tail[i] == u || tail[i] in s[1..];
      }
    }
  }

  lemma {:induction false} InsertIsStable(u: Utxo, s: seq<Utxo>, v: int)
    ensures Total(InsertByValue(u, s)) == u.valueSats + Total(s)
    ensures WithValue(InsertByValue(u, s), v) == (if u.valueSats == v then [u] else []) + WithValue(s, v)
  {
    if s == [] || u.valueSats <= s[0].valueSats {
      assert ([u] + s)[1..] == s;
    } else {
      InsertIsStable(u, s[1..], v);
      assert ([s[0]] + InsertByValue(u, s[1..]))[1..] == InsertByValue(u, s[1..]);
    }
  }

  /** The sort is a stable ascending permutation, which determines it. */
  lemma {:induction false} SortFacts(utxos: seq<Utxo>, v: int)
    ensures Ascending(SortByValue(utxos)) && multiset(SortByValue(utxos)) == multiset(utxos)
    ensures Total(SortByValue(utxos)) == Total(utxos)
    ensures WithValue(SortByValue(utxos), v) == WithValue(utxos, v)
  {
    if utxos != [] {
      SortFacts(utxos[1..], v);
      InsertSorts(utxos[0], SortByValue(utxos[1..]));
      InsertPermutes(utxos[0], SortByValue(utxos[1..]));
      InsertIsStable(utxos[0], SortByValue(utxos[1..]), v);
      assert utxos == [utxos[0]] + utxos[1..];
    }
  }

  // ---------------------------------------------------------------- selection

  function AtLeast(utxos: seq<Utxo>, needed: int): seq<Utxo> {
    if utxos == [] then []
    else (if utxos[0].valueSats >= needed then [utxos[0]] else []) + AtLeast(utxos[1..], needed)
  }

  lemma {:induction false} AtLeastFacts(utxos: seq<Utxo>, needed: int)
    ensures forall u :: u in AtLeast(utxos, needed) <==> u in utxos && u.valueSats >= needed
  {
    if utxos != [] {
      AtLeastFacts(utxos[1..], needed);
      assert utxos == [utxos[0]] + utxos[1..];
    }
  }

  /** The least `n >= from` such that the first `n` coins reach `needed`; `|s| + 1` if there is none. */
  function PrefixLength(s: seq<Utxo>, needed: int, from: nat): (n: nat)
    requires from <= |s|
    ensures from <= n <= |s| + 1
    decreases |s| - from
  {
    if Total(s[..from]) >= needed then from
    else if from == |s| then |s| + 1
    else PrefixLength(s, needed, from + 1)
  }

  function Selection(utxos: seq<Utxo>, needed: int): Result<seq<Utxo>> {
    if needed <= 0 then Failure(InsufficientFunds)
    else
      var sufficient := SortByValue(AtLeast(utxos, needed));
      if sufficient != [] then Success([sufficient[0]])
      else
        var sorted := SortByValue(utxos);
        var n := PrefixLength(sorted, needed, 0);
        if n > |sorted| then Failure(InsufficientFunds) else Success(sorted[..n])
  }

  method SelectUtxos(utxos: seq<Utxo>, target: int, fee: int) returns (r: Result<seq<Utxo>>)
    ensures r == Selection(utxos, target + fee)
  {
    var needed := target + fee;
    if needed <= 0 {
      return Failure(InsufficientFunds);
    }
    var sufficient := SortByValue(AtLeast(utxos, needed));
    if sufficient != [] {
      return Success([sufficient[0]]);
    }
    var sorted := SortByValue(utxos);
    var selected, sum := [], 0;
    for i := 0 to |sorted|
      invariant selected == sorted[..i] && sum == Total(sorted[..i]) && sum < needed
      invariant PrefixLength(sorted, needed, 0) == PrefixLength(sorted, needed, i)
    {
      assert sorted[..i + 1] == sorted[..i] + [sorted[i]];
      TotalAppend(sorted[..i], [sorted[i]]);
      selected := selected + [sorted[i]];
      sum := sum + sorted[i].valueSats;
      if sum >= needed {
        return Success(selected);
      }
    }
    return Failure(InsufficientFunds);
  }

  // ---------------------------------------------------------------- what is selected

  lemma {:induction false} PrefixLengthIsLeast(s: seq<Utxo>, needed: int, from: nat)
    requires from <= |s|
    ensures var n := PrefixLength(s, needed, from);
            && (n <= |s| ==> Total(s[..n]) >= needed)
            && (forall k :: from <= k < n && k <= |s| ==> Total(s[..k]) < needed)
    decreases |s| - from
  {
    if Total(s[..from]) < needed && from < |s| {
      PrefixLengthIsLeast(s, needed, from + 1);
    }
  }

  lemma {:induction false} PrefixTotals(s: seq<Utxo>, i: nat, j: nat)
    requires NonNegative(s) && i <= j <= |s|
    ensures Total(s[..i]) <= Total(s[..j])
    decreases j - i
  {
    if i < j {
      PrefixTotals(s, i, j - 1);
      assert s[..j] == s[..j - 1] + [s[j - 1]];
      TotalAppend(s[..j - 1], [s[j - 1]]);
    }
  }

  /** Either the smallest sufficient coin alone, or the shortest sufficient ascending prefix of all coins. */
  ghost predicate BestChoice(utxos: seq<Utxo>, needed: int, selected: seq<Utxo>) {
    || (&& |selected| == 1 && selected[0] in utxos && selected[0].valueSats >= needed
        && forall u :: u in utxos && u.valueSats >= needed ==> selected[0].valueSats <= u.valueSats)
    || (&& (forall u :: u in utxos ==> u.valueSats < needed)
        && 1 <= |selected| <= |utxos| == |SortByValue(utxos)|
        && selected == SortByValue(utxos)[..|selected|]
        && Total(selected) >= needed
        && forall k :: 0 <= k < |selected| ==> Total(selected[..k]) < needed)
  }

  lemma {:induction false} SortedLength(utxos: seq<Utxo>)
    ensures |SortByValue(utxos)| == |utxos|
    ensures forall u :: u in SortByValue(utxos) <==> u in utxos
  {
    SortFacts(utxos, 0);
    assert |multiset(SortByValue(utxos))| == |SortByValue(utxos)|;
    forall u
      ensures u in SortByValue(utxos) <==> u in utxos
    {
      assert u in multiset(utxos) <==> u in utxos;
      assert u in multiset(SortByValue(utxos)) <==> u in SortByValue(utxos);
    }
  }

  lemma {:induction false} SelectionIsBest(utxos: seq<Utxo>, needed: int)
    requires Selection(utxos, needed).Success?
    ensures needed > 0
    ensures BestChoice(utxos, needed, Selection(utxos, needed).value)
    ensures multiset(Selection(utxos, needed).value) <= multiset(utxos)
    ensures Total(Selection(utxos, needed).value) >= needed
  {
    var big := AtLeast(utxos, needed);
    AtLeastFacts(utxos, needed);
    SortedLength(big);
    if SortByValue(big) != [] {
      SmallestSufficient(utxos, needed);
    } else {
      assert forall u :: u in utxos && u.valueSats >= needed ==> u in big;
      ShortestPrefix(utxos, needed);
    }
  }

  lemma {:induction false} SmallestSufficient(utxos: seq<Utxo>, needed: int)
    requires SortByValue(AtLeast(utxos, needed)) != []
    ensures var u := SortByValue(AtLeast(utxos, needed))[0];
            && BestChoice(utxos, needed, [u]) && multiset([u]) <= multiset(utxos)
            && Total([u]) >= needed
  {
    var big := AtLeast(utxos, needed);
    var sorted := SortByValue(big);
    AtLeastFacts(utxos, needed);
    SortFacts(big, 0);
    SortedLength(big);
    assert sorted[0] in big;
    forall u | u in utxos && u.valueSats >= needed
      ensures sorted[0].valueSats <= u.valueSats
    {
      assert u in big && u in sorted;
    }
  }

  lemma {:induction false} ShortestPrefix(utxos: seq<Utxo>, needed: int)
    requires needed > 0 && forall u :: u in utxos ==> u.valueSats < needed
    requires PrefixLength(SortByValue(utxos), needed, 0) <= |SortByValue(utxos)|
    ensures var selected := SortByValue(utxos)[..PrefixLength(SortByValue(utxos), needed, 0)];
            BestChoice(utxos, needed, selected) && multiset(selected) <= multiset(utxos)
  {
    var all := SortByValue(utxos);
    SortedLength(utxos);
    PrefixLengthIsLeast(all, needed, 0);
    var selected := all[..PrefixLength(all, needed, 0)];
    assert forall k :: 0 <= k < |selected| ==> selected[..k] == all[..k];
    PrefixOfSorted(utxos, |selected|);
  }

  lemma {:induction false} PrefixOfSorted(utxos: seq<Utxo>, n: nat)
    requires n <= |SortByValue(utxos)|
    ensures multiset(SortByValue(utxos)[..n]) <= multiset(utxos)
  {
    SortFacts(utxos, 0);
    assert SortByValue(utxos) == SortByValue(utxos)[..n] + SortByValue(utxos)[n..];
  }

  lemma {:induction false} SelectionCovers(utxos: seq<Utxo>, needed: int)
    requires Selection(utxos, needed).Success?
    ensures Total(Selection(utxos, needed).value) >= needed > 0 && |Selection(utxos, needed).value| >= 1
  {
    SelectionIsBest(utxos, needed);
  }

  /** For non-negative coins selection succeeds exactly when the target is positive and affordable. */
  lemma {:induction false} SelectionComplete(utxos: seq<Utxo>, needed: int)
    requires NonNegative(utxos)
    ensures Selection(utxos, needed).Success? <==> 0 < needed <= Total(utxos)
    ensures Selection(utxos, needed).Failure? ==> Selection(utxos, needed).error == InsufficientFunds
  {
    var all := SortByValue(utxos);
    SortFacts(utxos, 0);
    SortedLength(utxos);
    PrefixLengthIsLeast(all, needed, 0);
    assert all[..|all|] == all;
    if Selection(utxos, needed).Success? {
      SelectionIsBest(utxos, needed);
      var selected := Selection(utxos, needed).value;
      if |selected| == 1 && selected[0] in utxos && selected[0].valueSats >= needed {
        OneOfTotal(utxos, selected[0]);
      } else {
        PrefixTotals(all, |selected|, |all|);
      }
    }
  }

  lemma {:induction false} OneOfTotal(utxos: seq<Utxo>, u: Utxo)
    requires NonNegative(utxos) && u in utxos
    ensures u.valueSats <= Total(utxos)
  {
    if u == utxos[0] {
      TotalNonNegative(utxos[1..]);
    } else {
      OneOfTotal(utxos[1..], u);
    }
  }

  lemma {:induction false} TotalNonNegative(utxos: seq<Utxo>)
    requires NonNegative(utxos)
    ensures Total(utxos) >= 0
  {
    if utxos != [] {
      TotalNonNegative(utxos[1..]);
    }
  }

  /** A larger target never selects fewer coins or a smaller sum, and is the harder one to afford. */
  lemma {:induction false} SelectionMonotone(utxos: seq<Utxo>, less: int, more: int)
    requires NonNegative(utxos) && 0 < less <= more && Selection(utxos, more).Success?
    ensures Selection(utxos, less).Success?
    ensures 1 <= |Selection(utxos, less).value| <= |Selection(utxos, more).value| <= |utxos|
    ensures Total(Selection(utxos, less).value) <= Total(Selection(utxos, more).value)
  {
    SelectionComplete(utxos, less);
    SelectionComplete(utxos, more);
    SelectionIsBest(utxos, less);
    SelectionIsBest(utxos, more);
    BestChoiceMonotone(utxos, less, more, Selection(utxos, less).value, Selection(utxos, more).value);
  }

  lemma {:induction false} BestChoiceMonotone(utxos: seq<Utxo>, less: int, more: int, s1: seq<Utxo>, s2: seq<Utxo>)
    requires NonNegative(utxos) && 0 < less <= more
    requires BestChoice(utxos, less, s1) && BestChoice(utxos, more, s2)
    ensures 1 <= |s1| <= |s2| <= |utxos| && Total(s1) <= Total(s2)
  {
    var all := SortByValue(utxos);
    SortedLength(utxos);
    if forall u :: u in utxos ==> u.valueSats < less {
      assert forall k :: 0 <= k < |s1| ==> s1[..k] == all[..k];
      PrefixTotals(all, |s1|, |s2|);
    } else {
      assert Total(s1) == s1[0].valueSats;
      assert |s2| == 1 ==> Total(s2) == s2[0].valueSats;
    }
  }
}
