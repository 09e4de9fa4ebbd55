/** Address discovery on one chain: the one-index-at-a-time rule and the batched, interruptible scan. */
module GapScan {
  import opened Wallet

  const END: nat := GAP_SCAN_MAX_INDEX + 1

  /** The seed's scripts by position and the chain's balance for each script, fixed for a scan. */
  datatype World = World(script: (HdChain, nat) -> string, balance: string -> int)

  predicate Used(w: World, chain: HdChain, index: nat) {
    w.balance(w.script(chain, index)) != 0
  }

  // ---------------------------------------------------------------- the rule

  /** Where a scan at `index` that has just seen `empty` unused positions stops: `gap` in a row, or the end. */
  function Stop(w: World, chain: HdChain, gap: nat, index: nat, empty: nat): (stop: nat)
    ensures stop >= index
    decreases END - index
  {
    if empty >= gap || index >= END then index
    else Stop(w, chain, gap, index + 1, if Used(w, chain, index) then 0 else empty + 1)
  }

  /** Unused positions in a row after examining `from` to `to - 1`. */
  function EmptyAfter(w: World, chain: HdChain, from: nat, until: nat, empty: nat): nat
    requires from <= until
    decreases until - from
  {
    if from == until then empty
    else EmptyAfter(w, chain, from + 1, until, if Used(w, chain, from) then 0 else empty + 1)
  }

  function Scripts(w: World, chain: HdChain, from: nat, until: nat): (s: seq<string>)
    requires from <= until
    ensures |s| == until - from
  {
    seq(until - from, i requires 0 <= i => w.script(chain, from + i))
  }

  /** A list extended by the used scripts of a range that it does not hold yet, in order. */
  function WithFunded(funded: seq<string>, w: World, chain: HdChain, from: nat, until: nat): seq<string>
    requires from <= until
    decreases until - from
  {
    if from == until then funded
    else
      var s := w.script(chain, from);
      WithFunded(if Used(w, chain, from) && s !in funded then funded + [s] else funded, w, chain, from + 1, until)
  }

  /** Every used position of the range has its script in the list. */
  ghost predicate Covered(w: World, chain: HdChain, from: nat, until: nat, funded: seq<string>) {
    forall i :: from <= i < until && Used(w, chain, i) ==> w.script(chain, i) in funded
  }

  lemma {:induction false} WithFundedFacts(funded: seq<string>, w: World, chain: HdChain, from: nat, until: nat)
    requires from <= until
    ensures funded <= WithFunded(funded, w, chain, from, until)
    ensures Covered(w, chain, from, until, WithFunded(funded, w, chain, from, until))
    ensures forall s :: s in WithFunded(funded, w, chain, from, until) && s !in funded ==>
      exists i :: from <= i < until && Used(w, chain, i) && s == w.script(chain, i)
    ensures forall i, j :: |funded| <= i < |WithFunded(funded, w, chain, from, until)| && 0 <= j < i ==>
      WithFunded(funded, w, chain, from, until)[i] != WithFunded(funded, w, chain, from, until)[j]
    decreases until - from
  {
    if from < until {
      var s := w.script(chain, from);
      var next := if Used(w, chain, from) && s !in funded then funded + [s] else funded;
      WithFundedFacts(next, w, chain, from + 1, until);
      var r := WithFunded(funded, w, chain, from, until);
      assert next <= r;
      forall x | x in next
        ensures x in r
      {
        var k :| 0 <= k < |next| && next[k] == x;
        assert r[k] == x;
      }
      forall x | x in r && x !in funded
        ensures exists i :: from <= i < until && Used(w, chain, i) && x == w.script(chain, i)
      {
        if x in next {
          assert Used(w, chain, from) && x == w.script(chain, from);
        }
      }
    }
  }

  lemma {:induction false} WithFundedSplit(funded: seq<string>, w: World, chain: HdChain, from: nat, mid: nat,
                                           until: nat)
    requires from <= mid <= until
    ensures WithFunded(funded, w, chain, from, until)
         == WithFunded(WithFunded(funded, w, chain, from, mid), w, chain, mid, until)
    decreases mid - from
  {
    if from < mid {
      var s := w.script(chain, from);
      var next := if Used(w, chain, from) && s !in funded then funded + [s] else funded;
      WithFundedSplit(next, w, chain, from + 1, mid, until);
    }
  }

  lemma {:induction false} ScriptsSplit(w: World, chain: HdChain, from: nat, mid: nat, until: nat)
    requires from <= mid <= until
    ensures Scripts(w, chain, from, until) == Scripts(w, chain, from, mid) + Scripts(w, chain, mid, until)
  {
  }

  /** A scan may be cut anywhere before its stop if the empty counter is carried over. */
  lemma {:induction false} StopSplit(w: World, chain: HdChain, gap: nat, index: nat, mid: nat, empty: nat)
    requires index <= mid <= Stop(w, chain, gap, index, empty)
    ensures Stop(w, chain, gap, mid, EmptyAfter(w, chain, index, mid, empty)) == Stop(w, chain, gap, index, empty)
    decreases mid - index
  {
    if index < mid {
      StopSplit(w, chain, gap, index + 1, mid, if Used(w, chain, index) then 0 else empty + 1);
    }
  }

  /** The same scripts, and whatever is used in the first world is used in the second. */
  ghost predicate Within(w: World, v: World) {
    w.script == v.script && forall s :: w.balance(s) != 0 ==> v.balance(s) != 0
  }

  /** Forgetting part of the counter never makes a scan stop earlier, and neither does more use. */
  lemma {:induction false} StopMonotone(w: World, v: World, chain: HdChain, gap: nat, index: nat, fewer: nat, more: nat)
    requires fewer <= more && Within(w, v)
    ensures Stop(w, chain, gap, index, more) <= Stop(v, chain, gap, index, fewer)
    decreases END - index
  {
    if more < gap && index < END {
      StopMonotone(w, v, chain, gap, index + 1, if Used(v, chain, index) then 0 else fewer + 1,
                   if Used(w, chain, index) then 0 else more + 1);
    }
  }

  /** A scan restarted with a fresh counter inside its range still reaches at least its stop. */
  lemma {:induction false} RestartReachesStop(w: World, chain: HdChain, gap: nat, index: nat, mid: nat, empty: nat)
    requires index <= mid <= Stop(w, chain, gap, index, empty)
    ensures Stop(w, chain, gap, index, empty) <= Stop(w, chain, gap, mid, 0)
  {
    StopSplit(w, chain, gap, index, mid, empty);
    StopMonotone(w, w, chain, gap, mid, 0, EmptyAfter(w, chain, index, mid, empty));
  }

  /** Some position of the window of `length` positions from `start` on is used. */
  ghost predicate AnyUsed(w: World, chain: HdChain, start: nat, length: nat) {
    exists i :: start <= i < start + length && Used(w, chain, i)
  }

  /** The rule itself: a scan ends at the end of the range or behind `gap` unused positions, and not before. */
  lemma {:induction false} StopIsTheRule(w: World, chain: HdChain, gap: nat, index: nat)
    requires index < END && gap > 0
    ensures var s := Stop(w, chain, gap, index, 0);
            && s <= END
            && (s == END || (s - gap >= index && forall i :: s - gap <= i < s ==> !Used(w, chain, i)))
            && forall j: nat :: index <= j && j + gap < s ==> AnyUsed(w, chain, j, gap)
  {
    StopShape(w, chain, gap, index, 0, index);
  }

  lemma {:induction false} StopShape(w: World, chain: HdChain, gap: nat, index: nat, empty: nat, start: nat)
    requires start + empty <= index <= END && empty <= gap && gap > 0
    requires forall i :: index - empty <= i < index ==> !Used(w, chain, i)
    requires empty < gap || index <= END
    requires start + empty < index ==> Used(w, chain, index - empty - 1)
    requires forall j: nat :: start <= j && j + gap < index ==> AnyUsed(w, chain, j, gap)
    ensures var s := Stop(w, chain, gap, index, empty);
            && s <= END
            && (s == END || (s - gap >= start && forall i :: s - gap <= i < s ==> !Used(w, chain, i)))
            && forall j: nat :: start <= j && j + gap < s ==> AnyUsed(w, chain, j, gap)
    decreases END - index
  {
    if empty < gap && index < END {
      var next := if Used(w, chain, index) then 0 else empty + 1;
      forall j: nat | start <= j && j + gap < index + 1
        ensures AnyUsed(w, chain, j, gap)
      {
        if j + gap == index {
          assert Used(w, chain, index - empty - 1);
        }
      }
      StopShape(w, chain, gap, index + 1, next, start);
    }
  }

  // ---------------------------------------------------------------- the batched scan

  /** What one request for the balances of a batch comes back with. */
  datatype Answer = Served | Pause | Failed

  /**
   * The outside of one run: the answer to a batch, by slice, number of scripts served in that slice
   * and batch size; whether each write to the keystore succeeds; and whether the listing after the scan
   * is served, by the number of scripts served in the last slice and the number of scripts listed.
   */
  datatype Env = Env(answer: (nat, nat, nat) -> Answer, hookSaves: (nat, nat) -> bool,
                     progressSaves: nat -> bool, completionSaves: bool, lists: (nat, nat) -> bool)

  datatype Ending = Complete | Paused | Aborted

  /** One call of the chain scan: scripts examined, next position, the list in memory and as saved, scripts served. */
  datatype ChainRun = ChainRun(ending: Ending, scripts: seq<string>, nextIndex: nat,
                               funded: seq<string>, saved: seq<string>, served: nat)

  function BatchEnd(index: nat, batch: nat): nat {
    if index + batch < END then index + batch else END
  }

  /** Where processing a served batch stops. */
  function StopIn(w: World, chain: HdChain, gap: nat, index: nat, end: nat, empty: nat): (stop: nat)
    requires index <= end
    ensures index <= stop <= end
    decreases end - index
  {
    if index == end || empty >= gap then index
    else StopIn(w, chain, gap, index + 1, end, if Used(w, chain, index) then 0 else empty + 1)
  }

  /** The state after a request, and whether the scan goes on to the next one. */
  datatype Turn = Turn(run: ChainRun, empty: nat, goesOn: bool)

  function ScanTurn(w: World, chain: HdChain, gap: nat, env: Env, slice: nat, batch: nat, empty: nat,
                    run: ChainRun): (t: Turn)
    requires batch >= 1 && run.nextIndex < END
    ensures t.goesOn ==> run.nextIndex < t.run.nextIndex <= END
  {
    var index := run.nextIndex;
    var end := BatchEnd(index, batch);
    match env.answer(slice, run.served, end - index)
    case Pause => Turn(run.(ending := Paused), empty, false)
    case Failed => Turn(run.(ending := Aborted), empty, false)
    case Served =>
      var stop := StopIn(w, chain, gap, index, end, empty);
      var left := EmptyAfter(w, chain, index, stop, empty);
      var funded := WithFunded(run.funded, w, chain, index, stop);
      var scripts := run.scripts + Scripts(w, chain, index, stop);
      var served := run.served + (end - index);
      if funded == run.funded then Turn(ChainRun(run.ending, scripts, end, funded, run.saved, served), left, true)
      else if env.hookSaves(slice, served) then
        Turn(ChainRun(run.ending, scripts, end, funded, funded, served), left, true)
      else Turn(ChainRun(Aborted, run.scripts, index, funded, run.saved, served), left, false)
  }

  function ScanChain(w: World, chain: HdChain, gap: nat, env: Env, slice: nat, batch: nat, empty: nat,
                     run: ChainRun): ChainRun
    requires batch >= 1
    decreases END - run.nextIndex
  {
    if empty >= gap || run.nextIndex >= END then run.(ending := Complete)
    else
      var t := ScanTurn(w, chain, gap, env, slice, batch, empty, run);
      if t.goesOn then ScanChain(w, chain, gap, env, slice, batch, t.empty, t.run) else t.run
  }

  function StartRun(index: nat, funded: seq<string>, saved: seq<string>, served: nat): ChainRun {
    ChainRun(Complete, [], index, funded, saved, served)
  }

  lemma {:induction false} StopInFacts(w: World, chain: HdChain, gap: nat, index: nat, end: nat, empty: nat)
    requires index <= end <= END
    ensures var stop, full := StopIn(w, chain, gap, index, end, empty), Stop(w, chain, gap, index, empty);
            var left := EmptyAfter(w, chain, index, stop, empty);
            && stop == (if full < end then full else end)
            && (left >= gap || stop == end)
            && (left >= gap ==> full == stop)
            && (left < gap ==> full == Stop(w, chain, gap, end, left))
    decreases end - index
  {
    if index < end && empty < gap {
      StopInFacts(w, chain, gap, index + 1, end, if Used(w, chain, index) then 0 else empty + 1);
    }
  }

  /**
   * What a call of the batched scan has done, in terms of the rule. A complete call has examined
   * exactly the rule's range; a paused one a part of it, up to its next index; the saved list is
   * the one in memory unless the call was aborted, and never loses an entry.
   */
  ghost predicate ScanFacts(w: World, chain: HdChain, gap: nat, empty: nat, before: ChainRun, r: ChainRun) {
    var index := before.nextIndex;
    var stop := Stop(w, chain, gap, index, empty);
    && r.nextIndex >= index && r.served - before.served >= r.nextIndex - index
    && before.funded <= r.funded && before.saved <= r.saved
    && (r.ending == Complete ==>
          && r.scripts == before.scripts + Scripts(w, chain, index, stop)
          && r.funded == WithFunded(before.funded, w, chain, index, stop)
          && stop <= r.nextIndex <= (if index < END then END else index)
          && r.served - before.served == r.nextIndex - index)
    && (r.ending == Paused ==>
          && r.nextIndex <= stop && r.nextIndex < END
          && r.scripts == before.scripts + Scripts(w, chain, index, r.nextIndex)
          && r.funded == WithFunded(before.funded, w, chain, index, r.nextIndex)
          && r.served - before.served == r.nextIndex - index)
    && (r.ending != Aborted ==> r.saved == r.funded)
  }

  /** A request that was served, in terms of the rule. */
  ghost predicate TurnFacts(w: World, chain: HdChain, gap: nat, empty: nat, before: ChainRun, t: Turn) {
    var index, next := before.nextIndex, t.run.nextIndex;
    var full := Stop(w, chain, gap, index, empty);
    var stop := if full < next then full else next;
    && index < next <= END && t.run.ending == before.ending
    && t.run.scripts == before.scripts + Scripts(w, chain, index, stop)
    && t.run.funded == WithFunded(before.funded, w, chain, index, stop)
    && t.run.served - before.served == next - index
    && t.run.saved == t.run.funded
    && before.funded <= t.run.funded
    && (t.empty >= gap ==> full == stop)
    && (t.empty < gap ==> stop == next && full == Stop(w, chain, gap, next, t.empty))
  }

  lemma {:induction false} ScanTurnFacts(w: World, chain: HdChain, gap: nat, env: Env, slice: nat, batch: nat,
                                         empty: nat, run: ChainRun)
    requires batch >= 1 && run.saved == run.funded && empty < gap && run.nextIndex < END
    ensures var t := ScanTurn(w, chain, gap, env, slice, batch, empty, run);
            if t.goesOn then TurnFacts(w, chain, gap, empty, run, t)
            else ScanFacts(w, chain, gap, empty, run, t.run) && t.run.ending != Complete
  {
    var index, end := run.nextIndex, BatchEnd(run.nextIndex, batch);
    assert run.scripts + Scripts(w, chain, index, index) == run.scripts;
    WithFundedFacts(run.funded, w, chain, index, StopIn(w, chain, gap, index, end, empty));
    StopInFacts(w, chain, gap, index, end, empty);
  }

  lemma {:induction false} ScanChainFacts(w: World, chain: HdChain, gap: nat, env: Env, slice: nat, batch: nat,
                                          empty: nat, run: ChainRun)
    requires batch >= 1 && run.saved == run.funded && run.ending != Aborted
    ensures ScanFacts(w, chain, gap, empty, run, ScanChain(w, chain, gap, env, slice, batch, empty, run))
    decreases END - run.nextIndex
  {
    if empty >= gap || run.nextIndex >= END {
      assert run.scripts + Scripts(w, chain, run.nextIndex, run.nextIndex) == run.scripts;
    } else {
      ScanTurnFacts(w, chain, gap, env, slice, batch, empty, run);
      var t := ScanTurn(w, chain, gap, env, slice, batch, empty, run);
      if t.goesOn {
        ScanChainFacts(w, chain, gap, env, slice, batch, t.empty, t.run);
        FactsCompose(w, chain, gap, empty, run, t, ScanChain(w, chain, gap, env, slice, batch, t.empty, t.run));
      }
    }
  }

  /** A served request followed by the rest of the scan. */
  lemma {:induction false} FactsCompose(w: World, chain: HdChain, gap: nat, empty: nat, before: ChainRun, t: Turn,
                                        r: ChainRun)
    requires before.saved == before.funded
    requires TurnFacts(w, chain, gap, empty, before, t) && ScanFacts(w, chain, gap, t.empty, t.run, r)
    requires t.empty >= gap ==> r == t.run.(ending := Complete)
    ensures ScanFacts(w, chain, gap, empty, before, r)
  {
    var index, next := before.nextIndex, t.run.nextIndex;
    if t.empty < gap {
      if r.ending == Complete {
        JoinRanges(w, chain, index, next, Stop(w, chain, gap, index, empty), before);
      }
      if r.ending == Paused {
        JoinRanges(w, chain, index, next, r.nextIndex, before);
      }
    }
  }

  lemma {:induction false} JoinRanges(w: World, chain: HdChain, from: nat, mid: nat, until: nat, before: ChainRun)
    requires from <= mid <= until
    ensures before.scripts + Scripts(w, chain, from, until)
         == (before.scripts + Scripts(w, chain, from, mid)) + Scripts(w, chain, mid, until)
    ensures WithFunded(before.funded, w, chain, from, until)
         == WithFunded(WithFunded(before.funded, w, chain, from, mid), w, chain, mid, until)
  {
    ScriptsSplit(w, chain, from, mid, until);
    WithFundedSplit(before.funded, w, chain, from, mid, until);
  }

  /** Without interruption the batch size is invisible: scripts and list are those of the rule. */
  lemma {:induction false} BatchSizeIsInvisible(w: World, chain: HdChain, gap: nat, env: Env, slice: nat, batch: nat,
                                                start: nat, funded: seq<string>, served: nat)
    requires batch >= 1
    requires forall s, v, n :: env.answer(s, v, n) == Served
    requires forall s, v :: env.hookSaves(s, v)
    ensures var r := ScanChain(w, chain, gap, env, slice, batch, 0, StartRun(start, funded, funded, served));
            && r.ending == Complete
            && r.scripts == Scripts(w, chain, start, Stop(w, chain, gap, start, 0))
            && r.funded == r.saved == WithFunded(funded, w, chain, start, Stop(w, chain, gap, start, 0))
  {
    ScanChainFacts(w, chain, gap, env, slice, batch, 0, StartRun(start, funded, funded, served));
    AlwaysServedCompletes(w, chain, gap, env, slice, batch, 0, StartRun(start, funded, funded, served));
  }

  lemma {:induction false} AlwaysServedCompletes(w: World, chain: HdChain, gap: nat, env: Env, slice: nat, batch: nat,
                                                 empty: nat, run: ChainRun)
    requires batch >= 1
    requires forall s, v, n :: env.answer(s, v, n) == Served
    requires forall s, v :: env.hookSaves(s, v)
    ensures ScanChain(w, chain, gap, env, slice, batch, empty, run).ending == Complete
    decreases END - run.nextIndex
  {
    if empty < gap && run.nextIndex < END {
      var t := ScanTurn(w, chain, gap, env, slice, batch, empty, run);
      AlwaysServedCompletes(w, chain, gap, env, slice, batch, t.empty, t.run);
    }
  }
}
