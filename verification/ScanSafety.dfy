/** Safety of the saved indexing state over every run, whatever interrupts it. */
module ScanSafety {
  import opened GapScan
  import opened Keystore
  import opened SyncEngine
  import opened Wallet

  /** What a seed fixes: the script of each position, and whether there is an internal chain. */
  datatype Keys = Keys(script: (HdChain, nat) -> string, coreHd: bool)

  datatype State = State(keys: Keys, record: Record)

  /**
   * Every step of the wallet that writes the record. A synchronisation and a refresh come with the balances that
   * the chain then shows, a refresh also before the scan is complete, and an import with new keys.
   */
  datatype Op =
    | Sync(balance: string -> int, env: Env, net: Network)
    | Refresh(balance: string -> int, net: Network)
    | Rescan(admitted: bool, saves: bool)
    | Register(script: string, saves: bool)
    | Import(keys: Keys, saves: bool)

  const FRESH := Record(false, [], NOTHING_SCANNED)

  function SiteOf(keys: Keys, balance: string -> int): Site {
    Site(World(keys.script, balance), keys.coreHd)
  }

  function Step(st: State, op: Op): State {
    var (keys, record) := (st.keys, st.record);
    match op
    case Sync(balance, env, net) => State(keys, Synced(SiteOf(keys, balance), record, env, net).record)
    case Refresh(balance, net) => State(keys, Refreshed(World(keys.script, balance), record, net).record)
    case Rescan(admitted, saves) =>
      if admitted && saves then State(keys, Record(false, record.funded, NOTHING_SCANNED)) else st
    case Register(script, saves) =>
      if saves then State(keys, record.(funded := Registered(record.funded, script))) else st
    case Import(other, saves) => if saves then State(other, FRESH) else st
  }

  /** The step as the engine and its keystore take it. */
  method Perform(engine: LightSyncEngine, keys: Keys, op: Op) returns (held: Keys)
    modifies engine.keystore
    ensures State(held, engine.keystore.Stored()) == Step(State(keys, old(engine.keystore.Stored())), op)
  {
    held := keys;
    match op {
      case Sync(balance, env, net) =>
        var _, _ := engine.Sync(SiteOf(keys, balance), env, net);
      case Refresh(balance, net) =>
        var _ := engine.RefreshUtxosFromNetwork(World(keys.script, balance), net);
      case Rescan(admitted, saves) =>
        if admitted {
          var _ := engine.keystore.MarkAddressScanIncomplete(saves);
        }
      case Register(script, saves) =>
        var _ := engine.keystore.RegisterFundedScriptHex(script, saves);
      case Import(other, saves) =>
        var ok := engine.keystore.ImportWallet(saves);
        held := if ok then other else keys;
    }
  }

  function Run(st: State, ops: seq<Op>): State
    decreases |ops|
  {
    if ops == [] then st else Run(Step(st, ops[0]), ops[1..])
  }

  // ---------------------------------------------------------------- the invariant

  /** Where the one-shot reference scan of a chain ends. */
  function ReferenceStop(w: World, chain: HdChain): nat {
    Stop(w, chain, GAP_LIMIT, 0, 0)
  }

  /** Up to where a chain's used positions are known to be in the list. */
  function KnownTo(w: World, chain: HdChain, pos: nat, done: bool): nat {
    if done then ReferenceStop(w, chain) else pos
  }

  /**
   * What is saved about a chain: below the position of an unfinished chain nothing used is missing;
   * of a finished one, nothing that the reference scan finds.
   */
  ghost predicate ChainOk(w: World, chain: HdChain, pos: nat, done: bool, funded: seq<string>) {
    && pos <= END
    && Covered(w, chain, 0, KnownTo(w, chain, pos, done), funded)
  }

  ghost predicate ProgressOk(site: Site, p: Progress, funded: seq<string>) {
    && ChainOk(site.world, External, p.gapExternal, p.externalDone, funded)
    && (site.coreHd ==> ChainOk(site.world, Internal, p.gapInternal, p.internalDone, funded))
    && p.gapInternal <= END && (p.gapInternal > 0 ==> p.externalDone)
  }

  ghost predicate Finished(site: Site, p: Progress) {
    p.externalDone && (site.coreHd ==> p.internalDone)
  }

  ghost predicate Inv(site: Site, record: Record) {
    && ProgressOk(site, record.progress, record.funded)
    && (record.scanComplete ==> Finished(site, record.progress))
  }

  /** A synchronisation sees a site on which at least everything of the given one is used. */
  ghost predicate Sees(site: Site, seen: Site) {
    site.coreHd == seen.coreHd && Within(site.world, seen.world)
  }

  // ---------------------------------------------------------------- one chain, one slice

  lemma {:induction false} CoveredGrows(w: World, chain: HdChain, until: nat, funded: seq<string>, more: seq<string>)
    requires Covered(w, chain, 0, until, funded) && funded <= more
    ensures Covered(w, chain, 0, until, more)
  {
    forall i | 0 <= i < until && Used(w, chain, i)
      ensures w.script(chain, i) in more
    {
      var k :| 0 <= k < |funded| && funded[k] == w.script(chain, i);
      assert more[k] == funded[k];
    }
  }

  lemma {:induction false} ProgressGrows(site: Site, p: Progress, funded: seq<string>, more: seq<string>)
    requires ProgressOk(site, p, funded) && funded <= more
    ensures ProgressOk(site, p, more)
  {
    CoveredGrows(site.world, External, KnownTo(site.world, External, p.gapExternal, p.externalDone), funded, more);
    if site.coreHd {
      CoveredGrows(site.world, Internal, KnownTo(site.world, Internal, p.gapInternal, p.internalDone), funded, more);
    }
  }

  /** A range examined where at least as much is used joins what is known below it. */
  lemma {:induction false} RangeKnown(w: World, v: World, chain: HdChain, pos: nat, until: nat, funded: seq<string>)
    requires Within(w, v) && pos <= until && Covered(w, chain, 0, pos, funded)
    ensures Covered(w, chain, 0, until, WithFunded(funded, v, chain, pos, until))
  {
    WithFundedFacts(funded, v, chain, pos, until);
    CoveredGrows(w, chain, pos, funded, WithFunded(funded, v, chain, pos, until));
  }

  /** A scan from any position ends behind the reference scan, unless it starts there. */
  lemma {:induction false} ReferenceReached(w: World, v: World, chain: HdChain, pos: nat)
    requires Within(w, v)
    ensures pos > ReferenceStop(w, chain) || ReferenceStop(w, chain) <= Stop(v, chain, GAP_LIMIT, pos, 0)
  {
    StopMonotone(w, v, chain, GAP_LIMIT, pos, 0, 0);
    if pos <= ReferenceStop(w, chain) {
      RestartReachesStop(w, chain, GAP_LIMIT, 0, pos, 0);
    }
  }

  /** One call of the chain scan from a saved position keeps what is saved about the chain true. */
  lemma {:induction false} ChainScanKeeps(w: World, v: World, chain: HdChain, env: Env, slice: nat, pos: nat,
                                          funded: seq<string>, served: nat)
    requires Within(w, v) && ChainOk(w, chain, pos, false, funded)
    ensures var start := StartRun(pos, funded, funded, served);
            var r := ScanChain(v, chain, GAP_LIMIT, env, slice, SCRIPTS_PER_BATCH, 0, start);
            && funded <= r.saved && (r.ending != Aborted ==> r.saved == r.funded)
            && (r.ending != Aborted ==> ChainOk(w, chain, r.nextIndex, r.ending == Complete, r.funded))
            && (r.ending != Aborted ==> r.served - served == r.nextIndex - pos)
  {
    var r := ScanChain(v, chain, GAP_LIMIT, env, slice, SCRIPTS_PER_BATCH, 0, StartRun(pos, funded, funded, served));
    ScanChainFacts(v, chain, GAP_LIMIT, env, slice, SCRIPTS_PER_BATCH, 0, StartRun(pos, funded, funded, served));
    if r.ending == Complete {
      RangeKnown(w, v, chain, pos, Stop(v, chain, GAP_LIMIT, pos, 0), funded);
      ReferenceReached(w, v, chain, pos);
    } else if r.ending == Paused {
      RangeKnown(w, v, chain, pos, r.nextIndex, funded);
    }
  }

  ghost function Distance(p: Progress): int {
    (END - p.gapExternal) + (END - p.gapInternal)
  }

  /** What a slice leaves behind: the list only grows, and its new progress is true of the saved list. */
  ghost predicate SliceOk(site: Site, p: Progress, funded: seq<string>, before: nat, s: SliceRun) {
    && funded <= s.saved
    && (s.ending != Aborted ==> s.saved == s.funded && ProgressOk(site, s.progress, s.funded))
    && (Finished(site, p) ==> Finished(site, s.progress))
    && (s.ending == Complete ==> Finished(site, s.progress))
    && (s.ending != Aborted ==> Distance(p) - Distance(s.progress) == s.served - before)
  }

  lemma {:induction false} InternalPartKeeps(site: Site, seen: Site, env: Env, slice: nat, p: Progress,
                                             funded: seq<string>, served: nat)
    requires Sees(site, seen) && ProgressOk(site, p, funded) && p.externalDone
    ensures SliceOk(site, p, funded, served, InternalPart(seen, env, slice, p, funded, funded, served))
  {
    if site.coreHd && !p.internalDone {
      ChainScanKeeps(site.world, seen.world, Internal, env, slice, p.gapInternal, funded, served);
      var r := ScanInternal(seen, env, slice, p, funded, funded, served);
      CoveredGrows(site.world, External, ReferenceStop(site.world, External), funded, r.saved);
    }
  }

  lemma {:induction false} SliceKeeps(site: Site, seen: Site, env: Env, slice: nat, p: Progress, funded: seq<string>)
    requires Sees(site, seen) && ProgressOk(site, p, funded)
    ensures SliceOk(site, p, funded, 0, Slice(seen, env, slice, p, funded, funded))
  {
    if p.externalDone {
      InternalPartKeeps(site, seen, env, slice, p, funded, 0);
    } else {
      ChainScanKeeps(site.world, seen.world, External, env, slice, p.gapExternal, funded, 0);
      var r := ScanExternal(seen, env, slice, p, funded, funded);
      if r.ending != Aborted {
        if site.coreHd {
          CoveredGrows(site.world, Internal, KnownTo(site.world, Internal, p.gapInternal, p.internalDone),
                       funded, r.funded);
        }
        if r.ending == Complete {
          InternalPartKeeps(site, seen, env, slice, AfterExternal(p, r), r.funded, r.served);
        }
      }
    }
  }

  // ---------------------------------------------------------------- whole runs

  /** What slices may do to a record on the way from one state to a later one. */
  ghost predicate Later(site: Site, record: Record, after: Record) {
    Inv(site, after) && record.funded <= after.funded && after.scanComplete == record.scanComplete
  }

  lemma {:induction false} LaterLater(site: Site, a: Record, b: Record, c: Record)
    requires Later(site, a, b) && Later(site, b, c)
    ensures Later(site, a, c)
  {
  }

  /** A slice leaves a record that is true whether its progress is saved or not. */
  lemma {:induction false} SliceSaves(site: Site, seen: Site, env: Env, slice: nat, record: Record)
    requires Sees(site, seen) && Inv(site, record)
    ensures var s := Slice(seen, env, slice, record.progress, record.funded, record.funded);
            && Later(site, record, record.(funded := s.saved))
            && (s.ending != Aborted ==>
                  s.saved == s.funded && Later(site, record, record.(funded := s.saved, progress := s.progress)))
            && (s.ending == Complete ==> Finished(site, s.progress))
  {
    SliceKeeps(site, seen, env, slice, record.progress, record.funded);
    ProgressGrows(site, record.progress, record.funded,
                  Slice(seen, env, slice, record.progress, record.funded, record.funded).saved);
  }

  /** A slice keeps what is good, whether its progress is saved or not, and completes only when done. */
  ghost predicate SliceIsGood(site: Site, env: Env, slice: nat, record: Record, good: Record -> bool,
                              done: Progress -> bool) {
    var s := Slice(site, env, slice, record.progress, record.funded, record.funded);
    && good(record.(funded := s.saved))
    && (s.ending != Aborted ==> s.saved == s.funded && good(record.(funded := s.saved, progress := s.progress)))
    && (s.ending == Complete ==> done(s.progress))
  }

  /** Induction over the slices of a run. */
  lemma {:induction false} SlicesInduct(site: Site, env: Env, slice: nat, record: Record, good: Record -> bool,
                                        done: Progress -> bool)
    requires slice <= MAX_SLICES && good(record)
    requires forall n: nat, r: Record {:trigger SliceIsGood(site, env, n, r, good, done)} ::
      good(r) ==> SliceIsGood(site, env, n, r, good, done)
    ensures var o := Slices(site, env, slice, record, record.progress, record.funded);
            good(o.record) && (o.ending == Complete ==> done(o.record.progress))
    decreases MAX_SLICES - slice
  {
    if slice < MAX_SLICES {
      assert SliceIsGood(site, env, slice, record, good, done);
      var s := Slice(site, env, slice, record.progress, record.funded, record.funded);
      if s.ending == Paused && (env.progressSaves(slice) || record.progress == s.progress) {
        SlicesInduct(site, env, slice + 1, record.(funded := s.saved, progress := s.progress), good, done);
      }
    }
  }

  lemma {:induction false} SlicesKeep(site: Site, seen: Site, env: Env, slice: nat, record: Record)
    requires slice <= MAX_SLICES && Sees(site, seen) && Inv(site, record)
    ensures var o := Slices(seen, env, slice, record, record.progress, record.funded);
            Later(site, record, o.record) && (o.ending == Complete ==> Finished(site, o.record.progress))
  {
    var good := (r: Record) => Later(site, record, r);
    var done := (p: Progress) => Finished(site, p);
    forall n: nat, r: Record | good(r)
      ensures SliceIsGood(seen, env, n, r, good, done)
    {
      LaterSlice(site, seen, env, n, record, r);
    }
    SlicesInduct(seen, env, slice, record, good, done);
  }

  lemma {:induction false} LaterSlice(site: Site, seen: Site, env: Env, n: nat, record: Record, r: Record)
    requires Sees(site, seen) && Later(site, record, r)
    ensures var s := Slice(seen, env, n, r.progress, r.funded, r.funded);
            && Later(site, record, r.(funded := s.saved))
            && (s.ending != Aborted ==>
                  s.saved == s.funded && Later(site, record, r.(funded := s.saved, progress := s.progress)))
            && (s.ending == Complete ==> Finished(site, s.progress))
  {
    SliceSaves(site, seen, env, n, r);
    var s := Slice(seen, env, n, r.progress, r.funded, r.funded);
    LaterLater(site, record, r, r.(funded := s.saved));
    if s.ending != Aborted {
      LaterLater(site, record, r, r.(funded := s.saved, progress := s.progress));
    }
  }

  lemma {:induction false} ScanKeeps(site: Site, seen: Site, env: Env, record: Record)
    requires Sees(site, seen) && Inv(site, record)
    ensures var o := Scan(seen, env, record); Inv(site, o.record) && record.funded <= o.record.funded
  {
    SlicesKeep(site, seen, env, 0, record);
  }

  lemma {:induction false} SyncKeeps(site: Site, seen: Site, record: Record, env: Env, net: Network)
    requires Sees(site, seen) && Inv(site, record)
    ensures var after := Synced(seen, record, env, net).record; Inv(site, after) && record.funded <= after.funded
  {
    if record.scanComplete {
      RefreshMeans(seen.world, record, net);
      ProgressGrows(site, record.progress, record.funded, Refreshed(seen.world, record, net).record.funded);
    } else if net.unlocked {
      ScanKeeps(site, seen, env, record);
      var o := Scan(seen, env, record);
      var admitted := env.lists(o.served, |o.record.funded|);
      ListedMeans(o.record, net, admitted);
      ProgressGrows(site, o.record.progress, o.record.funded, Listed(o.record, net, admitted).record.funded);
    }
  }

  /** Whatever keeps a balance throughout has one at this step. */
  ghost predicate Shows(base: string -> int, op: Op) {
    op.Sync? ==> forall s :: base(s) != 0 ==> op.balance(s) != 0
  }

  ghost predicate GoodState(base: string -> int, st: State) {
    Inv(SiteOf(st.keys, base), st.record)
  }

  lemma {:induction false} StepKeeps(base: string -> int, st: State, op: Op)
    requires GoodState(base, st) && Shows(base, op)
    ensures var after := Step(st, op);
            && GoodState(base, after)
            && (!op.Import? ==> after.keys == st.keys && st.record.funded <= after.record.funded)
  {
    var site, record := SiteOf(st.keys, base), st.record;
    match op
    case Sync(balance, env, net) => SyncKeeps(site, SiteOf(st.keys, balance), record, env, net);
    case Refresh(balance, net) =>
      RefreshMeans(World(st.keys.script, balance), record, net);
      ProgressGrows(site, record.progress, record.funded, Step(st, op).record.funded);
    case Register(script, saves) =>
      ProgressGrows(site, record.progress, record.funded, Registered(record.funded, script));
    case _ =>
  }

  /**
   * Over every run of synchronisations, interruptions, refreshes, rescans, registrations and imports, while the
   * chain changes between the steps, what is saved stays true of all that keeps a balance throughout, for the
   * keys held last; loading never needs its repair; and without an import no script is ever lost.
   */
  lemma {:induction false} EveryRunKeeps(base: string -> int, st: State, ops: seq<Op>)
    requires GoodState(base, st) && forall k :: 0 <= k < |ops| ==> Shows(base, ops[k])
    ensures var after := Run(st, ops);
            && GoodState(base, after)
            && Repaired(after.record.progress) == after.record.progress
            && ((forall k :: 0 <= k < |ops| ==> !ops[k].Import?) ==>
                  after.keys == st.keys && st.record.funded <= after.record.funded)
    decreases |ops|
  {
    if ops != [] {
      StepKeeps(base, st, ops[0]);
      assert forall k :: 0 <= k < |ops[1..]| ==> ops[1..][k] == ops[k + 1];
      EveryRunKeeps(base, Step(st, ops[0]), ops[1..]);
    }
  }

  /**
   * A wallet that reports its scan complete knows every script of its present keys that an uninterrupted scan
   * finds among those that kept a balance throughout.
   */
  lemma {:induction false} CompleteMeansFound(base: string -> int, keys: Keys, ops: seq<Op>)
    requires forall k :: 0 <= k < |ops| ==> Shows(base, ops[k])
    ensures var after := Run(State(keys, FRESH), ops);
            var w, funded := World(after.keys.script, base), after.record.funded;
            after.record.scanComplete ==>
              && Covered(w, External, 0, ReferenceStop(w, External), funded)
              && (after.keys.coreHd ==> Covered(w, Internal, 0, ReferenceStop(w, Internal), funded))
  {
    EveryRunKeeps(base, State(keys, FRESH), ops);
  }

  /** Some of the twenty positions from here on keeps a balance. */
  ghost predicate InTwenty(script: (HdChain, nat) -> string, base: string -> int, chain: HdChain, from: nat) {
    exists n: nat :: from <= n < from + 20 && base(script(chain, n)) != 0
  }

  /** No twenty positions in a row before this one are without a balance. */
  ghost predicate NoGapBefore(script: (HdChain, nat) -> string, base: string -> int, chain: HdChain, i: nat) {
    forall j: nat {:trigger InTwenty(script, base, chain, j)} :: j + 20 <= i ==> InTwenty(script, base, chain, j)
  }

  lemma {:induction false} ReferenceReaches(w: World, chain: HdChain, i: nat)
    requires i <= 501 && NoGapBefore(w.script, w.balance, chain, i)
    ensures i < ReferenceStop(w, chain)
  {
    var stop := ReferenceStop(w, chain);
    StopIsTheRule(w, chain, GAP_LIMIT, 0);
    if stop <= i {
      assert InTwenty(w.script, w.balance, chain, stop - 20);
      var n: nat :| stop - 20 <= n < stop && w.balance(w.script(chain, n)) != 0;
      assert Used(w, chain, n);
    }
  }

  /** In plain words: found is every script that kept a balance, up to the first twenty in a row that did not. */
  lemma {:induction false} CompleteHoldsBalances(base: string -> int, keys: Keys, ops: seq<Op>, chain: HdChain, i: nat)
    requires forall k :: 0 <= k < |ops| ==> Shows(base, ops[k])
    ensures var after := Run(State(keys, FRESH), ops);
            after.record.scanComplete && (chain == External || after.keys.coreHd)
            && i <= 501 && base(after.keys.script(chain, i)) != 0 && NoGapBefore(after.keys.script, base, chain, i) ==>
              after.keys.script(chain, i) in after.record.funded
  {
    var after := Run(State(keys, FRESH), ops);
    var w := World(after.keys.script, base);
    if after.record.scanComplete && i <= 501 && NoGapBefore(w.script, w.balance, chain, i) {
      CompleteMeansFound(base, keys, ops);
      ReferenceReaches(w, chain, i);
      assert base(w.script(chain, i)) != 0 ==> Used(w, chain, i);
    }
  }

  // ---------------------------------------------------------------- interruptions of one chain

  /** A chain scan resumed after each pause at its next index, with its counter of unused positions forgotten. */
  function Resumed(w: World, chain: HdChain, gap: nat, batch: nat, envs: seq<Env>, index: nat,
                   funded: seq<string>): ChainRun
    requires batch >= 1 && |envs| >= 1
    decreases |envs|
  {
    var r := ScanChain(w, chain, gap, envs[0], 0, batch, 0, StartRun(index, funded, funded, 0));
    if r.ending != Paused || |envs| == 1 then r
    else
      var rest := Resumed(w, chain, gap, batch, envs[1..], r.nextIndex, r.funded);
      rest.(scripts := r.scripts + rest.scripts)
  }

  /**
   * A chain scan examined one contiguous range; it ends there if paused, and once complete the range
   * holds that of the uninterrupted scan, so no used script of the latter is missing.
   */
  ghost predicate OneRange(w: World, chain: HdChain, gap: nat, index: nat, funded: seq<string>, r: ChainRun) {
    var last := index + |r.scripts|;
    && r.scripts == Scripts(w, chain, index, last)
    && r.funded == WithFunded(funded, w, chain, index, last)
    && (r.ending == Paused ==> r.nextIndex == last)
    && (r.ending == Complete ==>
          && Stop(w, chain, gap, index, 0) <= last
          && Covered(w, chain, index, Stop(w, chain, gap, index, 0), r.funded))
  }

  lemma {:induction false} RangesJoin(w: World, chain: HdChain, gap: nat, index: nat, funded: seq<string>,
                                      first: ChainRun, rest: ChainRun)
    requires first.ending == Paused && OneRange(w, chain, gap, index, funded, first)
    requires first.nextIndex <= Stop(w, chain, gap, index, 0)
    requires OneRange(w, chain, gap, first.nextIndex, first.funded, rest)
    ensures OneRange(w, chain, gap, index, funded, rest.(scripts := first.scripts + rest.scripts))
  {
    var last := first.nextIndex + |rest.scripts|;
    ScriptsSplit(w, chain, index, first.nextIndex, last);
    WithFundedSplit(funded, w, chain, index, first.nextIndex, last);
    WithFundedFacts(funded, w, chain, index, last);
    RestartReachesStop(w, chain, gap, index, first.nextIndex, 0);
  }

  lemma {:induction false} OneCallOneRange(w: World, chain: HdChain, gap: nat, batch: nat, env: Env, index: nat,
                                           funded: seq<string>)
    requires batch >= 1
    ensures var r := ScanChain(w, chain, gap, env, 0, batch, 0, StartRun(index, funded, funded, 0));
            && (r.ending != Aborted ==> OneRange(w, chain, gap, index, funded, r))
            && (r.ending == Paused ==> r.nextIndex <= Stop(w, chain, gap, index, 0))
  {
    ScanChainFacts(w, chain, gap, env, 0, batch, 0, StartRun(index, funded, funded, 0));
    var r := ScanChain(w, chain, gap, env, 0, batch, 0, StartRun(index, funded, funded, 0));
    if r.ending != Aborted {
      var reached := if r.ending == Complete then Stop(w, chain, gap, index, 0) else r.nextIndex;
      assert r.scripts == Scripts(w, chain, index, reached);
      WithFundedFacts(funded, w, chain, index, reached);
    }
  }

  /** However often it was paused and resumed. */
  lemma {:induction false} InterruptionsHideNothing(w: World, chain: HdChain, gap: nat, batch: nat, envs: seq<Env>,
                                                    index: nat, funded: seq<string>)
    requires batch >= 1 && |envs| >= 1
    ensures var r := Resumed(w, chain, gap, batch, envs, index, funded);
            r.ending != Aborted ==> OneRange(w, chain, gap, index, funded, r)
    decreases |envs|
  {
    var first := ScanChain(w, chain, gap, envs[0], 0, batch, 0, StartRun(index, funded, funded, 0));
    OneCallOneRange(w, chain, gap, batch, envs[0], index, funded);
    if first.ending == Paused && |envs| > 1 {
      var rest := Resumed(w, chain, gap, batch, envs[1..], first.nextIndex, first.funded);
      InterruptionsHideNothing(w, chain, gap, batch, envs[1..], first.nextIndex, first.funded);
      if rest.ending != Aborted {
        RangesJoin(w, chain, gap, index, funded, first, rest);
      }
    }
  }
}
