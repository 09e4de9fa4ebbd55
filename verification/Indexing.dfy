/** The Electrum client's request budget while a wallet is being indexed. */
module Indexing {
  import opened GapScan
  import opened Outcome

  datatype Limits = Limits(active: bool, rpcBudget: nat, maxScriptsPerBatch: nat, exhausted: bool)

  const NO_LIMITS := Limits(false, 0, 0, false)

  datatype Fetch<V> = Fetch(limits: Limits, result: Result<seq<V>>, requests: nat)

  predicate Grants(l: Limits, count: nat) {
    !l.active || (!l.exhausted && 0 < l.rpcBudget && count <= l.rpcBudget)
  }

  function Taken(l: Limits, count: nat): Limits {
    if !l.active then l
    else if !Grants(l, count) then l.(exhausted := true)
    else l.(rpcBudget := l.rpcBudget - count, exhausted := l.rpcBudget == count)
  }

  /** Requests for the scripts from the i-th on, one unit of the budget each; the first failure ends them. */
  function Fetched<V>(l: Limits, hashes: seq<string>, call: string -> Result<V>, i: nat): Fetch<V>
    requires i <= |hashes|
    decreases |hashes| - i
  {
    if i == |hashes| then Fetch(l, Success([]), 0)
    else if !Grants(l, 1) then Fetch(Taken(l, 1), Failure(BatchLimitReached), 0)
    else
      match call(hashes[i])
      case Failure(e) => Fetch(Taken(l, 1), Failure(e), 1)
      case Success(v) =>
        var rest := Fetched(Taken(l, 1), hashes, call, i + 1);
        Fetch(rest.limits, After([v], rest.result), rest.requests + 1)
  }

  class ElectrumLightClient {
    var active: bool
    var rpcBudget: nat
    var maxScriptsPerBatch: nat
    var exhausted: bool

    function State(): Limits
      reads this
    {
      Limits(active, rpcBudget, maxScriptsPerBatch, exhausted)
    }

    constructor ()
      ensures State() == NO_LIMITS
    {
      active, rpcBudget, maxScriptsPerBatch, exhausted := false, 0, 0, false;
    }

    method SetInitialIndexingLimits(maxScripthashRpcs: nat, maxScriptsPerBatch: nat)
      modifies this
      ensures State() == Limits(true, maxScripthashRpcs, maxScriptsPerBatch, false)
    {
      active, rpcBudget, exhausted := true, maxScripthashRpcs, false;
      this.maxScriptsPerBatch := maxScriptsPerBatch;
    }

    method ClearInitialIndexingLimits()
      modifies this
      ensures State() == NO_LIMITS
    {
      active, rpcBudget, maxScriptsPerBatch, exhausted := false, 0, 0, false;
    }

    method TakeRpcBudget(count: nat) returns (granted: bool)
      modifies this
      ensures granted == Grants(old(State()), count)
      ensures State() == Taken(old(State()), count)
    {
      if !active {
        return true;
      }
      if exhausted || rpcBudget == 0 {
        exhausted := true;
        return false;
      }
      if count > rpcBudget {
        exhausted := true;
        return false;
      }
      rpcBudget := rpcBudget - count;
      if rpcBudget == 0 {
        exhausted := true;
      }
      return true;
    }

    method FetchScripthashJson<V>(hashes: seq<string>, call: string -> Result<V>) returns (r: Result<seq<V>>)
      modifies this
      ensures r == Fetched(old(State()), hashes, call, 0).result
      ensures State() == Fetched(old(State()), hashes, call, 0).limits
    {
      var out: seq<V> := [];
      var i := 0;
      ghost var all := Fetched(State(), hashes, call, 0);
      assert all.result == After(out, all.result) by { StartOut(all.result); }
      while i < |hashes|
        invariant 0 <= i <= |hashes|
        invariant all.result == After(out, Fetched(State(), hashes, call, i).result)
        invariant all.limits == Fetched(State(), hashes, call, i).limits
      {
        ghost var here := State();
        var granted := TakeRpcBudget(1);
        if !granted {
          return Failure(BatchLimitReached);
        }
        match call(hashes[i]) {
          case Failure(e) =>
            return Failure(e);
          case Success(v) =>
            AfterAfter(out, v, Fetched(Taken(here, 1), hashes, call, i + 1).result);
            out := out + [v];
        }
        i := i + 1;
      }
      assert out + [] == out;
      return Success(out);
    }
  }

  lemma {:induction false} StartOut<V>(r: Result<seq<V>>)
    ensures After([], r) == r
  {
    if r.Success? {
      assert [] + r.value == r.value;
    }
  }

  lemma {:induction false} AfterAfter<V>(out: seq<V>, v: V, r: Result<seq<V>>)
    ensures After(out, After([v], r)) == After(out + [v], r)
  {
    if r.Success? {
      assert out + ([v] + r.value) == (out + [v]) + r.value;
    }
  }

  // ---------------------------------------------------------------- what the budget admits

  ghost predicate Answered<V>(hashes: seq<string>, call: string -> Result<V>, i: nat) {
    forall k :: i <= k < |hashes| ==> call(hashes[k]).Success?
  }

  /** The limits after so many granted requests. */
  function Spent(l: Limits, count: nat): Limits {
    if count == 0 then l
    else l.(rpcBudget := if count <= l.rpcBudget then l.rpcBudget - count else 0, exhausted := l.rpcBudget <= count)
  }

  /** An exhausted budget has nothing left. */
  predicate Consistent(l: Limits) {
    l.active && (l.exhausted ==> l.rpcBudget == 0)
  }

  /**
   * A fetch succeeds exactly when the budget covers every script and the server answers every call. It drains
   * the budget if nothing but the budget ends it.
   */
  lemma {:induction false} FetchClosedForm<V>(l: Limits, hashes: seq<string>, call: string -> Result<V>, i: nat)
    requires i <= |hashes| && Consistent(l)
    ensures var n, f := |hashes| - i, Fetched(l, hashes, call, i);
            && (f.result.Success? <==> n <= l.rpcBudget && Answered(hashes, call, i))
            && (f.result.Success? ==> |f.result.value| == n)
            && (f.result.Failure? && Answered(hashes, call, i) ==> f.result.error == BatchLimitReached)
            && (Answered(hashes, call, i) ==> f.limits == Spent(l, n))
    decreases |hashes| - i
  {
    if i < |hashes| && Grants(l, 1) {
      FetchClosedForm(Taken(l, 1), hashes, call, i + 1);
    }
  }

  /** Every call is paid for once, whatever the server answers. */
  lemma {:induction false} RequestsArePaid<V>(l: Limits, hashes: seq<string>, call: string -> Result<V>, i: nat)
    requires i <= |hashes| && l.active
    ensures var f := Fetched(l, hashes, call, i);
            f.limits.active && f.limits.rpcBudget + f.requests == l.rpcBudget
    decreases |hashes| - i
  {
    if i < |hashes| && Grants(l, 1) {
      RequestsArePaid(Taken(l, 1), hashes, call, i + 1);
    }
  }

  /** The requests made by a series of fetches. */
  function Requests<V>(l: Limits, fetches: seq<seq<string>>, call: string -> Result<V>): nat
    decreases |fetches|
  {
    if fetches == [] then 0
    else
      var f := Fetched(l, fetches[0], call, 0);
      f.requests + Requests(f.limits, fetches[1..], call)
  }

  /** However the fetches are cut, a slice never makes more requests than its budget. */
  lemma {:induction false} BudgetBoundsSlice<V>(l: Limits, fetches: seq<seq<string>>, call: string -> Result<V>)
    requires l.active
    ensures Requests(l, fetches, call) <= l.rpcBudget
    decreases |fetches|
  {
    if fetches != [] {
      RequestsArePaid(l, fetches[0], call, 0);
      BudgetBoundsSlice(Fetched(l, fetches[0], call, 0).limits, fetches[1..], call);
    }
  }

  lemma {:induction false} FetchShift<V>(l: Limits, front: seq<string>, hashes: seq<string>,
                                         call: string -> Result<V>, i: nat)
    requires i <= |hashes|
    ensures Fetched(l, front + hashes, call, |front| + i) == Fetched(l, hashes, call, i)
    decreases |hashes| - i
  {
    if i < |hashes| {
      FetchShift(Taken(l, 1), front, hashes, call, i + 1);
    }
  }

  /** Two fetches in a row are one: a slice's budget does not depend on how its batches are cut. */
  lemma {:induction false} FetchSplits<V>(l: Limits, first: seq<string>, second: seq<string>,
                                          call: string -> Result<V>, i: nat)
    requires i <= |first| && Fetched(l, first, call, i).result.Success?
    ensures var f := Fetched(l, first, call, i);
            var g := Fetched(f.limits, second, call, 0);
            Fetched(l, first + second, call, i)
            == Fetch(g.limits, After(f.result.value, g.result), f.requests + g.requests)
    decreases |first| - i
  {
    var f := Fetched(l, first, call, i);
    var g := Fetched(f.limits, second, call, 0);
    if i == |first| {
      FetchShift(l, first, second, call, 0);
      StartOut(g.result);
    } else {
      var rest := Fetched(Taken(l, 1), first, call, i + 1);
      FetchSplits(Taken(l, 1), first, second, call, i + 1);
      if g.result.Success? {
        var v := call(first[i]).value;
        assert [v] + (rest.result.value + g.result.value) == ([v] + rest.result.value) + g.result.value;
      }
    }
  }

  // ---------------------------------------------------------------- as the scan sees it

  /** The scan pauses only for the error that it knows as an exhausted budget. */
  function Seen<V>(r: Result<V>): Answer {
    match r
    case Success(_) => Served
    case Failure(e) => if e == BudgetExhausted then Pause else Failed
  }

  /** A request of a scan after so many scripts served in its slice, or of the listing that ends the scan. */
  datatype Request = Balances(slice: nat, served: nat, count: nat) | Listing(served: nat, count: nat)

  /** The hashes of the scripts of each request, and how the server answers the calls for them. */
  datatype Server<V> = Server(hashes: Request -> seq<string>, call: Request -> string -> Result<V>)

  /** As many hashes as scripts, and no answer with the words for an exhausted budget. */
  ghost predicate Genuine<V>(server: Server<V>) {
    && (forall q :: |server.hashes(q)| == q.count)
    && (forall q, h :: server.call(q)(h) != Failure(BudgetExhausted))
  }

  ghost predicate Works<V>(server: Server<V>) {
    forall q, h :: server.call(q)(h).Success?
  }

  /** The client's answer to a request, as the scan sees it, with the limits that its slice has left. */
  function ClientAnswer<V>(initial: Limits, server: Server<V>, q: Request): Answer {
    Seen(Fetched(Spent(initial, q.served), server.hashes(q), server.call(q), 0).result)
  }

  /** After any fetches that were served, these are the limits. */
  lemma {:induction false} SpentByFetch<V>(initial: Limits, served: nat, hashes: seq<string>,
                                           call: string -> Result<V>)
    requires Consistent(initial) && served <= initial.rpcBudget
    ensures var f := Fetched(Spent(initial, served), hashes, call, 0);
            f.result.Success? ==>
              f.limits == Spent(initial, served + |hashes|) && served + |hashes| <= initial.rpcBudget
  {
    FetchClosedForm(Spent(initial, served), hashes, call, 0);
  }

  lemma {:induction false} FetchError<V>(l: Limits, hashes: seq<string>, call: string -> Result<V>, i: nat,
                                         e: WalletError)
    requires i <= |hashes| && e != BatchLimitReached && forall h :: call(h) != Failure(e)
    ensures Fetched(l, hashes, call, i).result != Failure(e)
    decreases |hashes| - i
  {
    if i < |hashes| && Grants(l, 1) {
      FetchError(Taken(l, 1), hashes, call, i + 1, e);
    }
  }

  /**
   * A request is never answered with a pause, and is served only if it fits the rest of the budget; with a
   * working server, exactly then.
   */
  lemma {:induction false} ClientNeverPauses<V>(initial: Limits, server: Server<V>, q: Request)
    requires Consistent(initial) && Genuine(server) && q.count >= 1
    ensures var a := ClientAnswer(initial, server, q);
            && a != Pause
            && (a == Served ==> q.served + q.count <= initial.rpcBudget)
            && (Works(server) && q.served + q.count <= initial.rpcBudget ==> a == Served)
  {
    FetchClosedForm(Spent(initial, q.served), server.hashes(q), server.call(q), 0);
    FetchError(Spent(initial, q.served), server.hashes(q), server.call(q), 0, BudgetExhausted);
  }

  // ---------------------------------------------------------------- without limits, and with words that are recognised

  /** Without limits only the server decides. */
  lemma {:induction false} NoLimitsNoRefusal<V>(l: Limits, hashes: seq<string>, call: string -> Result<V>, i: nat)
    requires i <= |hashes| && !l.active
    ensures var f := Fetched(l, hashes, call, i);
            f.limits == l && (f.result.Success? <==> Answered(hashes, call, i))
    ensures var f := Fetched(l, hashes, call, i);
            f.result.Success? ==>
              && |f.result.value| == |hashes| - i
              && forall k :: i <= k < |hashes| ==> Success(f.result.value[k - i]) == call(hashes[k])
    decreases |hashes| - i
  {
    if i < |hashes| {
      NoLimitsNoRefusal(l, hashes, call, i + 1);
    }
  }

  /** The same answer, if a refusal came with the words that the scan recognises. */
  function WithKnownWords<V>(r: Result<V>): Result<V> {
    if r == Failure(BatchLimitReached) then Failure(BudgetExhausted) else r
  }

  function KnownWordsAnswer<V>(initial: Limits, server: Server<V>, q: Request): Answer {
    Seen(WithKnownWords(Fetched(Spent(initial, q.served), server.hashes(q), server.call(q), 0).result))
  }

  /** Then, with a working server, a request is served if it fits the budget and a pause if it does not. */
  lemma {:induction false} KnownWordsPause<V>(initial: Limits, server: Server<V>, q: Request)
    requires Consistent(initial) && Genuine(server) && Works(server)
    ensures KnownWordsAnswer(initial, server, q)
         == if q.count == 0 || q.served + q.count <= initial.rpcBudget then Served else Pause
  {
    FetchClosedForm(Spent(initial, q.served), server.hashes(q), server.call(q), 0);
  }
}
