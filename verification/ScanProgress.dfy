/** Whether a scan finishes: with a backend that pauses, and with the client that fails instead. */
module ScanProgress {
  import opened GapScan
  import opened Indexing
  import opened Keystore
  import opened Outcome
  import opened SyncEngine
  import opened ScanSafety
  import opened Wallet

  /** Every write succeeds. */
  ghost predicate Writes(env: Env) {
    && (forall slice: nat, served: nat :: env.hookSaves(slice, served))
    && (forall slice: nat :: env.progressSaves(slice))
    && env.completionSaves
  }

  // ---------------------------------------------------------------- a backend that pauses

  /** A backend that pauses only when what is left of a slice's budget cannot pay for the batch. */
  ghost predicate PausesOnBudget(env: Env) {
    && Writes(env)
    && forall slice: nat, served: nat, n: nat ::
         && env.answer(slice, served, n) != Failed
         && (env.answer(slice, served, n) == Pause ==> served + n > RPC_BUDGET_PER_SYNC)
  }

  /** A pause means that all but part of one batch of the budget was spent. */
  lemma {:induction false} PauseSpendsBudget(w: World, chain: HdChain, env: Env, slice: nat, empty: nat, run: ChainRun)
    requires PausesOnBudget(env) && run.ending == Complete
    ensures var r := ScanChain(w, chain, GAP_LIMIT, env, slice, SCRIPTS_PER_BATCH, empty, run);
            && r.ending != Aborted
            && (r.ending == Paused ==> r.served + SCRIPTS_PER_BATCH > RPC_BUDGET_PER_SYNC)
    decreases END - run.nextIndex
  {
    if empty < GAP_LIMIT && run.nextIndex < END {
      var t := ScanTurn(w, chain, GAP_LIMIT, env, slice, SCRIPTS_PER_BATCH, empty, run);
      assert BatchEnd(run.nextIndex, SCRIPTS_PER_BATCH) - run.nextIndex <= SCRIPTS_PER_BATCH;
      if t.goesOn {
        PauseSpendsBudget(w, chain, env, slice, t.empty, t.run);
      }
    }
  }

  lemma {:induction false} SliceSpendsBudget(site: Site, env: Env, slice: nat, p: Progress, funded: seq<string>)
    requires PausesOnBudget(env)
    ensures var s := Slice(site, env, slice, p, funded, funded);
            && s.ending != Aborted
            && (s.ending == Paused ==> s.served + SCRIPTS_PER_BATCH > RPC_BUDGET_PER_SYNC)
  {
    PauseSpendsBudget(site.world, External, env, slice, 0, StartRun(p.gapExternal, funded, funded, 0));
    PauseSpendsBudget(site.world, Internal, env, slice, 0, StartRun(p.gapInternal, funded, funded, 0));
    var r := ScanExternal(site, env, slice, p, funded, funded);
    PauseSpendsBudget(site.world, Internal, env, slice, 0, StartRun(p.gapInternal, r.funded, r.saved, r.served));
  }

  /** Scripts that a paused slice is served at least. */
  const SPENT: nat := RPC_BUDGET_PER_SYNC - SCRIPTS_PER_BATCH + 1

  /** A slice that pauses without having advanced ends the run. */
  lemma {:induction false} StalledSliceEnds(site: Site, env: Env, record: Record)
    requires Sane(record.progress)
    ensures var s := Slice(site, env, 0, record.progress, record.funded, record.funded);
            s.ending == Paused && s.progress == record.progress ==>
              Scan(site, env, record) == Finish(record.(funded := s.saved), Paused, s.served)
  {
  }

  /** Each paused slice brings the two positions closer to the end by what it was served. */
  lemma {:induction false} PausedSliceAdvances(site: Site, env: Env, slice: nat, p: Progress, funded: seq<string>)
    requires ProgressOk(site, p, funded)
    ensures var s := Slice(site, env, slice, p, funded, funded);
            s.ending == Paused ==> Distance(s.progress) == Distance(p) - s.served
  {
    SliceKeeps(site, site, env, slice, p, funded);
  }

  lemma {:induction false} SlicesFinish(site: Site, env: Env, slice: nat, record: Record)
    requires PausesOnBudget(env) && ProgressOk(site, record.progress, record.funded)
    requires slice < 6
    requires Distance(record.progress) + SPENT * slice <= 2 * END
    ensures Slices(site, env, slice, record, record.progress, record.funded).ending == Complete
    decreases 6 - slice
  {
    SliceKeeps(site, site, env, slice, record.progress, record.funded);
    SliceSpendsBudget(site, env, slice, record.progress, record.funded);
    var s := Slice(site, env, slice, record.progress, record.funded, record.funded);
    if s.ending == Paused {
      SlicesFinish(site, env, slice + 1, record.(funded := s.saved, progress := s.progress));
    }
  }

  /** Six slices of the twelve are enough: from any saved state one run then finishes both chains. */
  lemma {:induction false} PausingBackendFinishes(site: Site, env: Env, record: Record)
    requires PausesOnBudget(env) && Inv(site, record)
    ensures var o := Scan(site, env, record);
            o.ending == Complete && o.record.scanComplete && Inv(site, o.record)
  {
    SlicesFinish(site, env, 0, record);
    ScanKeeps(site, site, env, record);
  }

  // ---------------------------------------------------------------- the client as it is

  /** A client that never pauses and never exceeds the budget of a slice, whatever fails. */
  ghost predicate NeverPauses(env: Env) {
    forall slice: nat, served: nat, n: nat :: n >= 1 ==>
      && env.answer(slice, served, n) != Pause
      && (env.answer(slice, served, n) == Served ==> served + n <= RPC_BUDGET_PER_SYNC)
  }

  /** Such a client of which only the budget takes anything away. */
  ghost predicate FailsOnBudget(env: Env) {
    && Writes(env)
    && forall slice: nat, served: nat, n: nat :: n >= 1 ==>
         env.answer(slice, served, n) == if served + n <= RPC_BUDGET_PER_SYNC then Served else Failed
  }

  const SLICE_LIMITS := Limits(true, RPC_BUDGET_PER_SYNC, SCRIPTS_PER_BATCH, false)

  /** The world of a run with the client itself: fresh limits for every slice, and any outcome of the writes. */
  function ClientEnv<V>(server: Server<V>, env: Env): Env {
    env.(answer := (slice: nat, served: nat, n: nat) => ClientAnswer(SLICE_LIMITS, server, Balances(slice, served, n)),
         lists := (served: nat, n: nat) => ClientAnswer(SLICE_LIMITS, server, Listing(served, n)) == Served)
  }

  /** The client is of the first kind, and of the second if its server works and writes succeed. */
  lemma {:induction false} ClientFailsOnBudget<V>(server: Server<V>, env: Env)
    requires Genuine(server)
    ensures NeverPauses(ClientEnv(server, env))
    ensures Works(server) && Writes(env) ==> FailsOnBudget(ClientEnv(server, env))
    ensures Works(server) ==> forall served: nat, n: nat :: n >= 1 ==>
      (ClientEnv(server, env).lists(served, n) <==> served + n <= RPC_BUDGET_PER_SYNC)
  {
    forall q: Request | q.count >= 1
      ensures var a := ClientAnswer(SLICE_LIMITS, server, q);
              && a != Pause
              && (a == Served ==> q.served + q.count <= RPC_BUDGET_PER_SYNC)
              && (Works(server) && q.served + q.count <= RPC_BUDGET_PER_SYNC ==> a == Served)
    {
      ClientNeverPauses(SLICE_LIMITS, server, q);
    }
  }

  /** The same client if its refusals came with the words that the scan recognises. */
  function KnownWordsEnv<V(==)>(server: Server<V>, env: Env): Env {
    env.(answer := (slice: nat, served: nat, n: nat) =>
           KnownWordsAnswer(SLICE_LIMITS, server, Balances(slice, served, n)))
  }

  /** Those words alone would be enough: from any saved state one run would then finish both chains. */
  lemma {:induction false} KnownWordsFinish<V>(site: Site, server: Server<V>, env: Env, record: Record)
    requires Genuine(server) && Works(server) && Writes(env) && Inv(site, record)
    ensures var o := Scan(site, KnownWordsEnv(server, env), record);
            o.ending == Complete && o.record.scanComplete && Inv(site, o.record)
  {
    forall q: Request
      ensures KnownWordsAnswer(SLICE_LIMITS, server, q)
           == if q.count == 0 || q.served + q.count <= RPC_BUDGET_PER_SYNC then Served else Pause
    {
      KnownWordsPause(SLICE_LIMITS, server, q);
    }
    PausingBackendFinishes(site, KnownWordsEnv(server, env), record);
  }

  /**
   * The scripts requested by a scan from `index` that has to reach `stop`: whole batches, cut at the end of the
   * range.
   */
  function ChainCost(index: nat, stop: nat): nat
    requires index <= stop <= END
  {
    if stop == index then 0
    else BatchEnd(index, SCRIPTS_PER_BATCH * ((stop - index + SCRIPTS_PER_BATCH - 1) / SCRIPTS_PER_BATCH)) - index
  }

  /** The scripts one run has to request from a saved position. */
  function ScanCost(site: Site, p: Progress): nat {
    (if p.externalDone then 0 else CostFrom(site.world, External, p.gapExternal, 0))
    + (if !site.coreHd || p.internalDone then 0 else CostFrom(site.world, Internal, p.gapInternal, 0))
  }

  function CostFrom(w: World, chain: HdChain, index: nat, empty: nat): nat {
    if index >= END then 0
    else
      StopBound(w, chain, index, empty);
      ChainCost(index, Stop(w, chain, GAP_LIMIT, index, empty))
  }

  /** Whatever fails, a chain scan that completes has paid for every batch, within the budget. */
  lemma {:induction false} ChainPaid(w: World, chain: HdChain, env: Env, slice: nat, empty: nat, run: ChainRun)
    requires NeverPauses(env) && run.ending == Complete && run.nextIndex <= END && run.served <= RPC_BUDGET_PER_SYNC
    ensures var r := ScanChain(w, chain, GAP_LIMIT, env, slice, SCRIPTS_PER_BATCH, empty, run);
            && r.ending != Paused
            && (r.ending == Complete ==>
                  && r.served == run.served + CostFrom(w, chain, run.nextIndex, empty)
                  && r.served <= RPC_BUDGET_PER_SYNC)
    decreases END - run.nextIndex
  {
    StopBound(w, chain, run.nextIndex, empty);
    if empty < GAP_LIMIT && run.nextIndex < END {
      CostTurn(w, chain, run.nextIndex, empty);
      var t := ScanTurn(w, chain, GAP_LIMIT, env, slice, SCRIPTS_PER_BATCH, empty, run);
      if t.goesOn {
        ChainPaid(w, chain, env, slice, t.empty, t.run);
      }
    }
  }

  /** If only the budget can fail it and the budget pays, it completes. */
  lemma {:induction false} ChainWithinBudget(w: World, chain: HdChain, env: Env, slice: nat, empty: nat, run: ChainRun)
    requires FailsOnBudget(env) && run.ending == Complete && run.nextIndex <= END
    requires run.served + CostFrom(w, chain, run.nextIndex, empty) <= RPC_BUDGET_PER_SYNC
    ensures ScanChain(w, chain, GAP_LIMIT, env, slice, SCRIPTS_PER_BATCH, empty, run).ending == Complete
    decreases END - run.nextIndex
  {
    if empty < GAP_LIMIT && run.nextIndex < END {
      CostTurn(w, chain, run.nextIndex, empty);
      var t := ScanTurn(w, chain, GAP_LIMIT, env, slice, SCRIPTS_PER_BATCH, empty, run);
      ChainWithinBudget(w, chain, env, slice, t.empty, t.run);
    }
  }

  /** A batch is paid for in full, also where the scan stops inside it. */
  lemma {:induction false} CostTurn(w: World, chain: HdChain, index: nat, empty: nat)
    requires index < END && empty < GAP_LIMIT
    ensures var end := BatchEnd(index, SCRIPTS_PER_BATCH);
            var left := EmptyAfter(w, chain, index, StopIn(w, chain, GAP_LIMIT, index, end, empty), empty);
            CostFrom(w, chain, index, empty) == end - index + CostFrom(w, chain, end, left)
  {
    var end := BatchEnd(index, SCRIPTS_PER_BATCH);
    StopInFacts(w, chain, GAP_LIMIT, index, end, empty);
    StopBound(w, chain, index, empty);
    CostStep(index, end, Stop(w, chain, GAP_LIMIT, index, empty));
  }

  lemma {:induction false} StopBound(w: World, chain: HdChain, index: nat, empty: nat)
    requires index <= END
    ensures Stop(w, chain, GAP_LIMIT, index, empty) <= END
    decreases END - index
  {
    if empty < GAP_LIMIT && index < END {
      StopBound(w, chain, index + 1, if Used(w, chain, index) then 0 else empty + 1);
    }
  }

  lemma {:induction false} CostStep(index: nat, end: nat, stop: nat)
    requires index < END && end == BatchEnd(index, SCRIPTS_PER_BATCH) && index < stop <= END
    ensures ChainCost(index, stop) == (end - index) + if stop <= end then 0 else ChainCost(end, stop)
  {
    var batches := (stop - index + SCRIPTS_PER_BATCH - 1) / SCRIPTS_PER_BATCH;
    if stop <= end {
      assert batches == 1;
    } else {
      assert (stop - end + SCRIPTS_PER_BATCH - 1) / SCRIPTS_PER_BATCH == batches - 1;
    }
  }

  /** Positions inside the range, of which loading repairs none. */
  predicate Sane(p: Progress) {
    p.gapExternal <= END && p.gapInternal <= END && (p.gapInternal > 0 ==> p.externalDone)
  }

  /** A slice that completes has paid for both chains; no slice pauses. */
  lemma {:induction false} SlicePaid(site: Site, env: Env, slice: nat, p: Progress, funded: seq<string>)
    requires NeverPauses(env) && Sane(p)
    ensures var s := Slice(site, env, slice, p, funded, funded);
            && s.ending != Paused
            && (s.ending == Complete ==> s.served == ScanCost(site, p) <= RPC_BUDGET_PER_SYNC)
  {
    ChainPaid(site.world, External, env, slice, 0, StartRun(p.gapExternal, funded, funded, 0));
    var r := ScanExternal(site, env, slice, p, funded, funded);
    ChainPaid(site.world, Internal, env, slice, 0, StartRun(p.gapInternal, funded, funded, 0));
    if r.ending == Complete {
      ChainPaid(site.world, Internal, env, slice, 0, StartRun(p.gapInternal, r.funded, r.saved, r.served));
    }
  }

  lemma {:induction false} SliceWithinBudget(site: Site, env: Env, slice: nat, p: Progress, funded: seq<string>)
    requires FailsOnBudget(env) && Sane(p) && ScanCost(site, p) <= RPC_BUDGET_PER_SYNC
    ensures Slice(site, env, slice, p, funded, funded).ending == Complete
  {
    var inner := if !site.coreHd || p.internalDone then 0 else CostFrom(site.world, Internal, p.gapInternal, 0);
    if inner == 0 || p.externalDone {
      InnerWithinBudget(site, env, slice, p, funded, funded, 0);
    }
    if !p.externalDone {
      ChainWithinBudget(site.world, External, env, slice, 0, StartRun(p.gapExternal, funded, funded, 0));
      ChainPaid(site.world, External, env, slice, 0, StartRun(p.gapExternal, funded, funded, 0));
      var r := ScanExternal(site, env, slice, p, funded, funded);
      InnerWithinBudget(site, env, slice, AfterExternal(p, r), r.funded, r.saved, r.served);
    }
  }

  lemma {:induction false} InnerWithinBudget(site: Site, env: Env, slice: nat, p: Progress, funded: seq<string>,
                                             saved: seq<string>, served: nat)
    requires FailsOnBudget(env) && p.gapInternal <= END
    requires !site.coreHd || p.internalDone
             || served + CostFrom(site.world, Internal, p.gapInternal, 0) <= RPC_BUDGET_PER_SYNC
    ensures InternalPart(site, env, slice, p, funded, saved, served).ending == Complete
  {
    if site.coreHd && !p.internalDone {
      ChainWithinBudget(site.world, Internal, env, slice, 0, StartRun(p.gapInternal, funded, saved, served));
    }
  }

  /** Whatever fails, a run that completes has paid for both chains from one budget; otherwise its progress stays. */
  lemma {:induction false} OneBudgetPays(site: Site, env: Env, record: Record)
    requires NeverPauses(env) && Sane(record.progress)
    ensures var o := Scan(site, env, record);
            && (o.ending == Complete ==> o.served == ScanCost(site, record.progress) <= RPC_BUDGET_PER_SYNC)
            && (ScanCost(site, record.progress) > RPC_BUDGET_PER_SYNC ==>
                  && o.ending == Aborted
                  && o.record.progress == record.progress && o.record.scanComplete == record.scanComplete)
  {
    SlicePaid(site, env, 0, record.progress, record.funded);
  }

  /** If only the budget can fail it, a run completes exactly when one budget pays for all of it. */
  lemma {:induction false} OneBudgetOrNothing(site: Site, env: Env, record: Record)
    requires FailsOnBudget(env) && Sane(record.progress)
    ensures var o := Scan(site, env, record);
            && (o.ending == Complete <==> ScanCost(site, record.progress) <= RPC_BUDGET_PER_SYNC)
            && (o.ending != Complete ==>
                  o.record.progress == record.progress && o.record.scanComplete == record.scanComplete)
  {
    OneBudgetPays(site, env, record);
    if ScanCost(site, record.progress) <= RPC_BUDGET_PER_SYNC {
      SliceWithinBudget(site, env, 0, record.progress, record.funded);
    }
  }

  /**
   * A synchronisation with a client that never pauses, of more than one budget allows from this position on, or
   * a step that leaves the position.
   */
  ghost predicate Stuck(keys: Keys, p: Progress, op: Op) {
    match op
    case Sync(balance, env, _) => NeverPauses(env) && ScanCost(SiteOf(keys, balance), p) > RPC_BUDGET_PER_SYNC
    case Refresh(_, _) => true
    case Rescan(_, _) => p == NOTHING_SCANNED
    case Register(_, _) => true
    case Import(_, _) => false
  }

  lemma {:induction false} StuckStays(st: State, op: Op)
    requires Sane(st.record.progress) && !st.record.scanComplete && Stuck(st.keys, st.record.progress, op)
    ensures var after := Step(st, op);
            after.keys == st.keys && after.record.progress == st.record.progress && !after.record.scanComplete
  {
    match op
    case Sync(balance, env, _) => OneBudgetPays(SiteOf(st.keys, balance), env, st.record);
    case Refresh(balance, net) => RefreshMeans(World(st.keys.script, balance), st.record, net);
    case _ =>
  }

  /** Repeating the run does not help: a wallet too large for one budget is never indexed, whatever else fails. */
  lemma {:induction false} TooLargeIsNeverIndexed(st: State, ops: seq<Op>)
    requires Sane(st.record.progress) && !st.record.scanComplete
    requires forall k :: 0 <= k < |ops| ==> Stuck(st.keys, st.record.progress, ops[k])
    ensures var after := Run(st, ops); !after.record.scanComplete && after.record.progress == st.record.progress
    decreases |ops|
  {
    if ops != [] {
      StuckStays(st, ops[0]);
      assert forall k :: 0 <= k < |ops[1..]| ==> ops[1..][k] == ops[k + 1];
      TooLargeIsNeverIndexed(Step(st, ops[0]), ops[1..]);
    }
  }

  // ---------------------------------------------------------------- wallets that are too large

  /** The first `n` external positions are used, and no others. */
  ghost predicate UsedPrefix(w: World, n: nat) {
    n <= END && forall i: nat :: i < END ==> (Used(w, External, i) <==> i < n)
  }

  lemma {:induction false} PrefixStop(w: World, n: nat, index: nat, empty: nat)
    requires UsedPrefix(w, n) && index <= END && empty <= GAP_LIMIT
    requires if index <= n then empty == 0 else index == n + empty
    ensures Stop(w, External, GAP_LIMIT, index, empty) == if n + GAP_LIMIT < END then n + GAP_LIMIT else END
    decreases END - index
  {
    if empty < GAP_LIMIT && index < END {
      PrefixStop(w, n, index + 1, if Used(w, External, index) then 0 else empty + 1);
    }
  }

  /** What a fresh scan of such a chain costs, and from when on that is more than one budget. */
  lemma {:induction false} PrefixCost(w: World, n: nat)
    requires UsedPrefix(w, n)
    ensures var cost := CostFrom(w, External, 0, 0);
            && (cost > RPC_BUDGET_PER_SYNC <==> n >= 173)
            && (cost + n > RPC_BUDGET_PER_SYNC <==> n >= 77)
  {
    var stop := Stop(w, External, GAP_LIMIT, 0, 0);
    PrefixStop(w, n, 0, 0);
    CostInBatches(stop);
    BatchesIn(n, stop, ChainCost(0, stop));
  }

  ghost predicate WholeBatches(stop: nat, cost: nat) {
    stop <= cost < stop + SCRIPTS_PER_BATCH && (cost == END || cost % SCRIPTS_PER_BATCH == 0)
  }

  lemma {:induction false} CostInBatches(stop: nat)
    requires 0 < stop <= END
    ensures WholeBatches(stop, ChainCost(0, stop))
  {
  }

  lemma {:induction false} BatchesIn(n: nat, stop: nat, cost: nat)
    requires stop == (if n + GAP_LIMIT < END then n + GAP_LIMIT else END) && WholeBatches(stop, cost)
    ensures cost > RPC_BUDGET_PER_SYNC <==> n >= 173
    ensures cost + n > RPC_BUDGET_PER_SYNC <==> n >= 77
  {
  }

  /** One budget does not pay for a fresh scan of such a wallet exactly from 173 used positions on. */
  lemma {:induction false} TooLargeIff(w: World, n: nat)
    requires UsedPrefix(w, n)
    ensures ScanCost(Site(w, false), FRESH.progress) > RPC_BUDGET_PER_SYNC <==> n >= 173
  {
    PrefixCost(w, n);
  }

  /** At this step of a wallet 173 or more positions are used, the first ones. */
  ghost predicate Large(keys: Keys, balance: string -> int) {
    exists n: nat :: n >= 173 && UsedPrefix(World(keys.script, balance), n)
  }

  /** With the client as it is, whatever its server answers and which writes succeed. */
  ghost predicate LargeWithClient<V>(keys: Keys, op: Op, server: Server<V>, env: Env) {
    match op
    case Sync(balance, e, _) => e == ClientEnv(server, env) && Genuine(server) && Large(keys, balance)
    case Import(_, _) => false
    case _ => true
  }

  /** No number of synchronisations and rescans ever completes the scan of such a wallet. */
  lemma {:induction false} LargeWalletNeverIndexed<V>(keys: Keys, ops: seq<Op>, server: nat -> Server<V>,
                                                      env: nat -> Env)
    requires forall k: nat :: k < |ops| ==> LargeWithClient(keys, ops[k], server(k), env(k))
    ensures !Run(State(keys, FRESH), ops).record.scanComplete
  {
    forall k: nat | k < |ops|
      ensures Stuck(keys, NOTHING_SCANNED, ops[k])
    {
      LargeIsStuck(keys, ops[k], server(k), env(k));
    }
    TooLargeIsNeverIndexed(State(keys, FRESH), ops);
  }

  lemma {:induction false} LargeIsStuck<V>(keys: Keys, op: Op, server: Server<V>, env: Env)
    requires LargeWithClient(keys, op, server, env)
    ensures Stuck(keys, NOTHING_SCANNED, op)
  {
    if op.Sync? {
      ClientFailsOnBudget(server, env);
      var w := World(keys.script, op.balance);
      var n: nat :| n >= 173 && UsedPrefix(w, n);
      PrefixCost(w, n);
    }
  }

  // ---------------------------------------------------------------- the listing after the scan

  ghost predicate DistinctScripts(w: World) {
    forall i: nat, j: nat :: i < j < END ==> w.script(External, i) != w.script(External, j)
  }

  /** Among distinct scripts every used one is collected once. */
  lemma {:induction false} PrefixFunded(w: World, n: nat, funded: seq<string>, from: nat, until: nat)
    requires UsedPrefix(w, n) && DistinctScripts(w) && from <= until <= END
    requires forall i: nat :: from <= i < END ==> w.script(External, i) !in funded
    ensures |WithFunded(funded, w, External, from, until)|
         == |funded| + if n <= from then 0 else if n <= until then n - from else until - from
    decreases until - from
  {
    if from < until {
      PrefixFunded(w, n, if from < n then funded + [w.script(External, from)] else funded, from + 1, until);
    }
  }

  /** A fresh scan that completes holds every used script. */
  lemma {:induction false} FreshFunded(w: World, n: nat, env: Env)
    requires UsedPrefix(w, n) && DistinctScripts(w) && NeverPauses(env)
    ensures var o := Scan(Site(w, false), env, FRESH);
            o.ending == Complete ==> |o.record.funded| == n && o.served == CostFrom(w, External, 0, 0)
  {
    var start := StartRun(0, [], [], 0);
    OneBudgetPays(Site(w, false), env, FRESH);
    SlicePaid(Site(w, false), env, 0, NOTHING_SCANNED, []);
    ScanChainFacts(w, External, GAP_LIMIT, env, 0, SCRIPTS_PER_BATCH, 0, start);
    PrefixStop(w, n, 0, 0);
    PrefixFunded(w, n, [], 0, Stop(w, External, GAP_LIMIT, 0, 0));
  }

  /** How a synchronisation with a due scan ends. */
  lemma {:induction false} SyncWithScan(site: Site, env: Env, record: Record, net: Network)
    requires !record.scanComplete && net.unlocked && net.listed.Some?
    ensures var o, r := Scan(site, env, record), Synced(site, record, env, net);
            && r.record.scanComplete == o.record.scanComplete
            && (o.ending == Complete ==>
                  o.record.scanComplete && (r.ok <==> o.record.funded == [] || env.lists(o.served, |o.record.funded|)))
            && (o.ending == Aborted ==> !r.ok)
  {
  }

  /**
   * The listing that ends the first synchronisation runs under the rest of the scan's budget. With a working
   * server the scan is marked complete exactly up to 172 used positions, but the synchronisation ends without an
   * error exactly up to 76.
   */
  lemma {:induction false} FirstSyncIff<V>(w: World, n: nat, server: Server<V>, env: Env, net: Network)
    requires UsedPrefix(w, n) && DistinctScripts(w)
    requires Genuine(server) && Works(server) && Writes(env) && net.unlocked && net.listed.Some?
    ensures var r := Synced(Site(w, false), FRESH, ClientEnv(server, env), net);
            (r.record.scanComplete <==> n < 173) && (r.ok <==> n < 77)
  {
    var client := ClientEnv(server, env);
    ClientFailsOnBudget(server, env);
    PrefixCost(w, n);
    OneBudgetPays(Site(w, false), client, FRESH);
    OneBudgetOrNothing(Site(w, false), client, FRESH);
    FreshFunded(w, n, client);
    SyncWithScan(Site(w, false), client, FRESH, net);
  }

  function PrefixWorld(n: nat): World {
    World((chain: HdChain, i: nat) => seq(i + 1, _ => 'x'), s => if |s| <= n then 1 else 0)
  }

  /** Such wallets exist for every count. */
  lemma {:induction false} PrefixWorlds(n: nat)
    requires n <= END
    ensures UsedPrefix(PrefixWorld(n), n) && DistinctScripts(PrefixWorld(n))
  {
    var w := PrefixWorld(n);
    forall i: nat, j: nat | i < j < END
      ensures w.script(External, i) != w.script(External, j)
    {
      assert |w.script(External, i)| == i + 1 && |w.script(External, j)| == j + 1;
    }
  }
}
