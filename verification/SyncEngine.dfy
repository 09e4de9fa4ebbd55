/** The indexing run: slices of a two-chain scan with saved progress. */
module SyncEngine {
  import opened Bytes
  import opened GapScan
  import opened KeySet
  import opened Keystore
  import opened Outcome
  import opened Rescan
  import opened UtxoTable
  import opened Wallet

  const GAP_LIMIT: nat := 20
  const SCRIPTS_PER_BATCH: nat := 32
  const RPC_BUDGET_PER_SYNC: nat := 200
  const MAX_SLICES: nat := 12

  /** A wallet's view: the world, and whether its seed has an internal chain. */
  datatype Site = Site(world: World, coreHd: bool)

  // ---------------------------------------------------------------- what a run does

  datatype SliceRun = SliceRun(ending: Ending, progress: Progress, funded: seq<string>, saved: seq<string>, served: nat)

  function ScanExternal(site: Site, env: Env, slice: nat, p: Progress, funded: seq<string>,
                        saved: seq<string>): ChainRun {
    ScanChain(site.world, External, GAP_LIMIT, env, slice, SCRIPTS_PER_BATCH, 0,
              StartRun(p.gapExternal, funded, saved, 0))
  }

  function ScanInternal(site: Site, env: Env, slice: nat, p: Progress, funded: seq<string>, saved: seq<string>,
                        served: nat)
    : ChainRun
  {
    ScanChain(site.world, Internal, GAP_LIMIT, env, slice, SCRIPTS_PER_BATCH, 0,
              StartRun(p.gapInternal, funded, saved, served))
  }

  function AfterExternal(p: Progress, ext: ChainRun): Progress {
    p.(gapExternal := ext.nextIndex, externalDone := ext.ending == Complete)
  }

  function AfterInternal(p: Progress, inner: ChainRun): Progress {
    p.(gapInternal := inner.nextIndex, internalDone := inner.ending == Complete)
  }

  function InternalPart(site: Site, env: Env, slice: nat, p: Progress, funded: seq<string>, saved: seq<string>,
                        served: nat)
    : SliceRun
  {
    if !site.coreHd || p.internalDone then SliceRun(Complete, p, funded, saved, served)
    else
      var r := ScanInternal(site, env, slice, p, funded, saved, served);
      SliceRun(r.ending, if r.ending == Aborted then p else AfterInternal(p, r), r.funded, r.saved, r.served)
  }

  /** One slice: the external chain unless done, then the internal chain if there is one and it is not done. */
  function Slice(site: Site, env: Env, slice: nat, p: Progress, funded: seq<string>, saved: seq<string>): SliceRun {
    if p.externalDone then InternalPart(site, env, slice, p, funded, saved, 0)
    else
      var r := ScanExternal(site, env, slice, p, funded, saved);
      if r.ending != Complete then
        SliceRun(r.ending, if r.ending == Aborted then p else AfterExternal(p, r), r.funded, r.saved, r.served)
      else InternalPart(site, env, slice, AfterExternal(p, r), r.funded, r.saved, r.served)
  }

  /** The stored record, how the slices ended, and the scripts served in the last one. */
  datatype Finish = Finish(record: Record, ending: Ending, served: nat)

  /** Slices until one completes, aborts, changes nothing, or the limit is reached. */
  function Slices(site: Site, env: Env, slice: nat, record: Record, p: Progress, funded: seq<string>): Finish
    requires slice <= MAX_SLICES
    decreases MAX_SLICES - slice
  {
    if slice == MAX_SLICES then Finish(record, Paused, 0)
    else
      var s := Slice(site, env, slice, p, funded, record.funded);
      var saved := record.(funded := s.saved);
      if s.ending == Aborted || (!env.progressSaves(slice) && saved.progress != s.progress) then
        Finish(saved, Aborted, s.served)
      else
        var kept := saved.(progress := s.progress);
        if s.ending == Complete then Finish(kept, Complete, s.served)
        else if s.progress == p then Finish(kept, Paused, s.served)
        else Slices(site, env, slice + 1, kept, s.progress, s.funded)
  }

  function Scan(site: Site, env: Env, record: Record): Finish {
    var o := Slices(site, env, 0, record, Repaired(record.progress), record.funded);
    if o.ending != Complete then o
    else if !env.completionSaves then Finish(o.record, Aborted, o.served)
    else Finish(Record(true, o.record.funded, ALL_SCANNED), Complete, o.served)
  }

  /** The network as one synchronisation meets it, apart from the scan itself. */
  datatype Network = Network(
    unlocked: bool,               // the seed is available
    precached: seq<string>,       // scripts derived in advance
    answers: bool,                // the request for their balances succeeds
    saves: bool,                  // so does saving the extended list
    listed: Option<seq<string>>,  // the scripts of the outputs listed; None if listing fails
    registers: nat -> bool)       // whether registering the k-th of them is saved

  const PRECACHE_CHUNK: nat := 32

  function Chunk(precached: seq<string>): seq<string> {
    if |precached| <= PRECACHE_CHUNK then precached else precached[..PRECACHE_CHUNK]
  }

  /** The list after looking at the balances of a chunk of scripts from the k-th on. */
  function Extended(w: World, funded: seq<string>, chunk: seq<string>, k: nat): seq<string>
    requires k <= |chunk|
    decreases |chunk| - k
  {
    if k == |chunk| then funded
    else
      var next := if w.balance(chunk[k]) > 0 && chunk[k] !in funded then funded + [chunk[k]] else funded;
      Extended(w, next, chunk, k + 1)
  }

  /** The stored record after a step, and whether the step ended without an error. */
  datatype Report = Report(record: Record, ok: bool)

  /** Listing the outputs of the scripts held, if the request budget admits it. */
  function Listed(record: Record, net: Network, admitted: bool): Report {
    if !admitted || net.listed.None? then Report(record, false)
    else Report(record.(funded := AllRegistered(record.funded, net.listed.value, net.registers, 0)), true)
  }

  /** A refresh without a scan, which no budget limits. */
  function Refreshed(w: World, record: Record, net: Network): Report {
    if net.precached == [] then if record.funded == [] then Report(record, true) else Listed(record, net, true)
    else if !net.answers then Report(record, false)
    else
      var funded := Extended(w, record.funded, Chunk(net.precached), 0);
      if net.unlocked && !net.saves then Report(record, false)
      else
        var kept := if net.unlocked then record.(funded := funded) else record;
        if funded == [] then Report(kept, true) else Listed(kept, net, true)
  }

  /** One synchronisation: a scan if one is due, and a refresh, which after a scan has what its budget leaves. */
  function Synced(site: Site, record: Record, env: Env, net: Network): Report {
    if record.scanComplete then Refreshed(site.world, record, net)
    else if !net.unlocked then Report(record, true)
    else
      var o := Scan(site, env, record);
      if o.ending != Complete then Report(o.record, o.ending == Paused)
      else if o.record.funded == [] then Report(o.record, true)
      else Listed(o.record, net, env.lists(o.served, |o.record.funded|))
  }

  /** A slice that was not cut off has saved the list it holds. */
  lemma {:induction false} SliceSaved(site: Site, env: Env, slice: nat, p: Progress, funded: seq<string>)
    ensures var s := Slice(site, env, slice, p, funded, funded); s.ending != Aborted ==> s.saved == s.funded
  {
    ScanChainFacts(site.world, External, GAP_LIMIT, env, slice, SCRIPTS_PER_BATCH, 0,
                   StartRun(p.gapExternal, funded, funded, 0));
    var ext := ScanExternal(site, env, slice, p, funded, funded);
    ScanChainFacts(site.world, Internal, GAP_LIMIT, env, slice, SCRIPTS_PER_BATCH, 0,
                   StartRun(p.gapInternal, funded, funded, 0));
    if ext.ending == Complete {
      ScanChainFacts(site.world, Internal, GAP_LIMIT, env, slice, SCRIPTS_PER_BATCH, 0,
                     StartRun(p.gapInternal, ext.funded, ext.saved, ext.served));
    }
  }

  /** Only a run that completes marks the scan complete, and only if that is written; it keeps the list. */
  lemma {:induction false} SlicesLeaveMark(site: Site, env: Env, slice: nat, record: Record, p: Progress,
                                           funded: seq<string>)
    requires slice <= MAX_SLICES
    ensures Slices(site, env, slice, record, p, funded).record.scanComplete == record.scanComplete
    decreases MAX_SLICES - slice
  {
    if slice < MAX_SLICES {
      var s := Slice(site, env, slice, p, funded, record.funded);
      if s.ending == Paused {
        SlicesLeaveMark(site, env, slice + 1, record.(funded := s.saved, progress := s.progress), s.progress, s.funded);
      }
    }
  }

  lemma {:induction false} ScanEnds(site: Site, env: Env, record: Record)
    ensures var o := Scan(site, env, record);
            && (o.ending == Complete ==>
                  env.completionSaves && o.record.scanComplete && o.record.progress == Progress(0, 0, true, 0, true))
            && (o.ending != Complete ==> o.record.scanComplete == record.scanComplete)
  {
    SlicesLeaveMark(site, env, 0, record, Repaired(record.progress), record.funded);
  }

  /** An advance that cannot be saved ends the run with an error, and the old position stays. */
  lemma {:induction false} FailedSaveEnds(site: Site, env: Env, record: Record)
    requires !env.progressSaves(0)
    ensures var s := Slice(site, env, 0, Repaired(record.progress), record.funded, record.funded);
            s.ending != Aborted && s.progress != record.progress ==>
              Scan(site, env, record) == Finish(record.(funded := s.saved), Aborted, s.served)
  {
  }

  // ---------------------------------------------------------------- what a refresh means

  /** One of the first 32 scripts derived in advance, with a positive balance. */
  ghost predicate Offered(w: World, net: Network, script: string) {
    exists i :: 0 <= i < |net.precached| && i < 32 && net.precached[i] == script && w.balance(script) > 0
  }

  /** Some script of the chunk, from the k-th on, is this one and has a positive balance. */
  ghost predicate InChunk(w: World, chunk: seq<string>, k: nat, script: string) {
    exists i :: k <= i < |chunk| && chunk[i] == script && w.balance(script) > 0
  }

  lemma {:induction false} ExtendedMeans(w: World, funded: seq<string>, chunk: seq<string>, k: nat, script: string)
    requires k <= |chunk|
    ensures funded <= Extended(w, funded, chunk, k)
    ensures script in Extended(w, funded, chunk, k) <==> script in funded || InChunk(w, chunk, k, script)
    decreases |chunk| - k
  {
    if k < |chunk| {
      var next := if w.balance(chunk[k]) > 0 && chunk[k] !in funded then funded + [chunk[k]] else funded;
      ExtendedMeans(w, next, chunk, k + 1, script);
      assert script in next <==> script in funded || (script == chunk[k] && w.balance(script) > 0);
    }
  }

  /** No script is added twice. */
  lemma {:induction false} ExtendedOnce(w: World, funded: seq<string>, chunk: seq<string>, k: nat)
    requires k <= |chunk|
    ensures var r := Extended(w, funded, chunk, k);
            |funded| <= |r| && forall i, j :: |funded| <= i < |r| && 0 <= j < i ==> r[i] != r[j]
    decreases |chunk| - k
  {
    if k < |chunk| {
      var next := if w.balance(chunk[k]) > 0 && chunk[k] !in funded then funded + [chunk[k]] else funded;
      ExtendedMeans(w, next, chunk, k + 1, chunk[k]);
      ExtendedOnce(w, next, chunk, k + 1);
      if |next| > |funded| {
        assert Extended(w, next, chunk, k + 1)[..|next|] == next;
      }
    }
  }

  /** The extended list holds the old scripts and exactly those offered besides, each once. */
  lemma {:induction false} ChunkMeans(w: World, funded: seq<string>, net: Network)
    ensures var r := Extended(w, funded, Chunk(net.precached), 0);
            && funded <= r
            && (forall s :: s in r <==> s in funded || Offered(w, net, s))
            && forall i, j :: |funded| <= i < |r| && 0 <= j < i ==> r[i] != r[j]
  {
    var chunk := Chunk(net.precached);
    ExtendedMeans(w, funded, chunk, 0, "");
    ExtendedOnce(w, funded, chunk, 0);
    forall s
      ensures s in Extended(w, funded, chunk, 0) <==> s in funded || Offered(w, net, s)
    {
      ExtendedMeans(w, funded, chunk, 0, s);
      if Offered(w, net, s) {
        var i :| 0 <= i < |net.precached| && i < 32 && net.precached[i] == s && w.balance(s) > 0;
        assert chunk[i] == s;
      }
    }
  }

  /** A script of an output listed whose registration is written. */
  ghost predicate ListedSaved(net: Network, script: string) {
    && net.listed.Some?
    && exists i :: 0 <= i < |net.listed.value| && net.listed.value[i] == script && script != "" && net.registers(i)
  }

  /** A listing that is served leaves every such script held, and adds nothing else. */
  lemma {:induction false} ListedMeans(record: Record, net: Network, admitted: bool)
    ensures var r := Listed(record, net, admitted);
            && (r.ok <==> admitted && net.listed.Some?)
            && r.record == record.(funded := r.record.funded) && record.funded <= r.record.funded
            && (!r.ok ==> r.record == record)
            && (forall s :: r.ok && ListedSaved(net, s) ==> Holds(r.record.funded, s))
            && (forall s :: s in r.record.funded ==> s in record.funded || ListedSaved(net, s))
  {
    if admitted && net.listed.Some? {
      var listed := net.listed.value;
      AllRegisteredGrows(record.funded, listed, net.registers, 0);
      AllRegisteredAdds(record.funded, listed, net.registers, 0);
      forall s | ListedSaved(net, s)
        ensures Holds(AllRegistered(record.funded, listed, net.registers, 0), s)
      {
        var i :| 0 <= i < |listed| && listed[i] == s && s != "" && net.registers(i);
        AllRegisteredHolds(record.funded, listed, net.registers, 0, i);
      }
    }
  }

  /** There is something to list: a script held, or one offered. */
  ghost predicate AnyToList(w: World, record: Record, net: Network) {
    record.funded != [] || exists s :: Offered(w, net, s)
  }

  /**
   * A refresh keeps the positions and every script. It adds offered scripts if the seed is at hand, and listed
   * ones, and nothing else. Without an error it has added them all; and it ends in an error exactly if the
   * balances cannot be asked for, or the extended list not be saved, or the outputs not be listed.
   */
  lemma {:induction false} RefreshMeans(w: World, record: Record, net: Network)
    ensures var r := Refreshed(w, record, net);
            && r.record == record.(funded := r.record.funded) && record.funded <= r.record.funded
            && (forall s :: s in r.record.funded ==>
                  s in record.funded || (net.unlocked && Offered(w, net, s)) || ListedSaved(net, s))
            && (r.ok <==> (net.precached == [] || (net.answers && (net.unlocked ==> net.saves)))
                          && (AnyToList(w, record, net) ==> net.listed.Some?))
            && (r.ok && net.unlocked ==> forall s :: Offered(w, net, s) ==> s in r.record.funded)
            && (r.ok && AnyToList(w, record, net) ==> forall s :: ListedSaved(net, s) ==> Holds(r.record.funded, s))
  {
    var funded := Extended(w, record.funded, Chunk(net.precached), 0);
    ChunkMeans(w, record.funded, net);
    ListedMeans(record, net, true);
    ListedMeans(record.(funded := funded), net, true);
    if funded == [] {
      assert forall s :: s !in funded;
    } else {
      assert funded[0] in funded;
    }
  }

  /** A synchronisation without the seed leaves a due scan alone; one with it goes on only where it stopped. */
  lemma {:induction false} SyncMeans(site: Site, record: Record, env: Env, net: Network)
    ensures var r := Synced(site, record, env, net);
            && (record.scanComplete ==> r == Refreshed(site.world, record, net) && r.record.progress == record.progress)
            && (!record.scanComplete && !net.unlocked ==> r.record == record && r.ok)
  {
    RefreshMeans(site.world, record, net);
  }

  // ---------------------------------------------------------------- the code

  /** The loop over one served batch: counts, collects, and stops at the gap. */
  method ProcessBatch(w: World, chain: HdChain, gap: nat, index: nat, end: nat, empty: nat,
                      batch: seq<string>, balances: seq<int>, scripts: seq<string>, funded: seq<string>)
    returns (empty': nat, scripts': seq<string>, funded': seq<string>, hadFunded: bool)
    requires index <= end && empty < gap && |batch| == |balances| == end - index
    requires forall k :: 0 <= k < |batch| ==>
      batch[k] == w.script(chain, index + k) && balances[k] == w.balance(batch[k])
    ensures var stop := StopIn(w, chain, gap, index, end, empty);
            && empty' == EmptyAfter(w, chain, index, stop, empty)
            && scripts' == scripts + Scripts(w, chain, index, stop)
            && funded' == WithFunded(funded, w, chain, index, stop)
            && hadFunded == (funded' != funded)
  {
    empty', scripts', funded', hadFunded := empty, scripts, funded, false;
    ghost var stop := StopIn(w, chain, gap, index, end, empty);
    var k: nat := 0;
    while k < |batch| && empty' < gap
      invariant 0 <= k <= |batch|
      invariant index + k <= stop == StopIn(w, chain, gap, index + k, end, empty')
      invariant EmptyAfter(w, chain, index, stop, empty) == EmptyAfter(w, chain, index + k, stop, empty')
      invariant scripts' == scripts + Scripts(w, chain, index, index + k)
      invariant WithFunded(funded, w, chain, index, stop) == WithFunded(funded', w, chain, index + k, stop)
      invariant |funded'| >= |funded| && hadFunded == (|funded'| > |funded|) && (!hadFunded ==> funded' == funded)
    {
      var scriptHex := batch[k];
      if balances[k] == 0 {
        empty' := empty' + 1;
      } else {
        empty' := 0;
        if scriptHex !in funded' {
          funded' := funded' + [scriptHex];
          hadFunded := true;
        }
      }
      scripts' := scripts' + [scriptHex];
      k := k + 1;
    }
  }

  class LightSyncEngine {
    const keystore: KeystoreService

    constructor (keystore: KeystoreService)
      ensures this.keystore == keystore
    {
      this.keystore := keystore;
    }

    /** One turn of the scan loop: a request for a batch, its results, and the hook if anything new was found. */
    method ScanBatch(w: World, chain: HdChain, gap: nat, env: Env, slice: nat, batchSize: nat, empty: nat,
                     run: ChainRun)
      returns (t: Turn)
      requires batchSize >= 1 && empty < gap && run.nextIndex < END && run.saved == keystore.funded
      modifies keystore
      ensures t == ScanTurn(w, chain, gap, env, slice, batchSize, empty, run)
      ensures keystore.Stored() == old(keystore.Stored()).(funded := t.run.saved)
    {
      var index := run.nextIndex;
      var batchEnd := if index + batchSize < END then index + batchSize else END;
      var batch := BatchScripts(w, chain, index, batchEnd);
      match env.answer(slice, run.served, |batch|) {
        case Pause => return Turn(run.(ending := Paused), empty, false);
        case Failed => return Turn(run.(ending := Aborted), empty, false);
        case Served =>
      }
      var balances := seq(|batch|, k requires 0 <= k < |batch| => w.balance(batch[k]));
      var served := run.served + |batch|;
      var left, scripts, funded, hadFunded :=
        ProcessBatch(w, chain, gap, index, batchEnd, empty, batch, balances, run.scripts, run.funded);
      if hadFunded {
        var ok := keystore.SetFundedScriptHexes(funded, env.hookSaves(slice, served));
        if !ok {
          return Turn(ChainRun(Aborted, run.scripts, index, funded, run.saved, served), left, false);
        }
      }
      return Turn(ChainRun(run.ending, scripts, batchEnd, funded, keystore.funded, served), left, true);
    }

    method DiscoverChainScriptHexes(w: World, chain: HdChain, gap: nat, start: nat, env: Env, slice: nat,
                                    batchSize: nat, fundedBefore: seq<string>, servedBefore: nat)
      returns (r: ChainRun)
      requires batchSize >= 1
      modifies keystore
      ensures r == ScanChain(w, chain, gap, env, slice, batchSize, 0,
                             StartRun(start, fundedBefore, old(keystore.funded), servedBefore))
      ensures keystore.Stored() == old(keystore.Stored()).(funded := r.saved)
    {
      r := StartRun(start, fundedBefore, keystore.funded, servedBefore);
      ghost var before := r;
      var empty: nat := 0;
      while empty < gap && r.nextIndex < END
        invariant ScanChain(w, chain, gap, env, slice, batchSize, 0, before)
               == ScanChain(w, chain, gap, env, slice, batchSize, empty, r)
        invariant r.ending == Complete
        invariant keystore.Stored() == old(keystore.Stored()).(funded := r.saved)
        decreases END - r.nextIndex
      {
        var t := ScanBatch(w, chain, gap, env, slice, batchSize, empty, r);
        r, empty := t.run, t.empty;
        if !t.goesOn {
          return;
        }
      }
    }

    method DiscoverScriptHexes(site: Site, env: Env, slice: nat, p: Progress, fundedBefore: seq<string>)
      returns (r: SliceRun)
      modifies keystore
      ensures r == Slice(site, env, slice, p, fundedBefore, old(keystore.funded))
      ensures keystore.Stored() == old(keystore.Stored()).(funded := r.saved)
    {
      var progress, funded, served := p, fundedBefore, 0;
      if !progress.externalDone {
        var ext := DiscoverChainScriptHexes(site.world, External, GAP_LIMIT, progress.gapExternal, env, slice,
                                            SCRIPTS_PER_BATCH, funded, 0);
        if ext.ending == Aborted {
          return SliceRun(Aborted, p, ext.funded, ext.saved, ext.served);
        }
        progress := progress.(gapExternal := ext.nextIndex);
        funded, served := ext.funded, ext.served;
        if ext.ending == Paused {
          return SliceRun(Paused, progress, funded, ext.saved, served);
        }
        progress := progress.(externalDone := true);
      }
      if !site.coreHd {
        return SliceRun(Complete, progress, funded, keystore.funded, served);
      }
      if !progress.internalDone {
        var inner := DiscoverChainScriptHexes(site.world, Internal, GAP_LIMIT, progress.gapInternal, env, slice,
                                              SCRIPTS_PER_BATCH, funded, served);
        if inner.ending == Aborted {
          return SliceRun(Aborted, progress, inner.funded, inner.saved, inner.served);
        }
        progress := progress.(gapInternal := inner.nextIndex);
        funded, served := inner.funded, inner.served;
        if inner.ending == Paused {
          return SliceRun(Paused, progress, funded, inner.saved, served);
        }
        progress := progress.(internalDone := true);
      }
      r := SliceRun(Complete, progress, funded, keystore.funded, served);
    }

    /** Also returns the list held in memory. */
    method RunGapScan(site: Site, env: Env) returns (ending: Ending, funded: seq<string>, served: nat)
      modifies keystore
      ensures Finish(keystore.Stored(), ending, served) == Scan(site, env, old(keystore.Stored()))
      ensures ending == Complete ==> funded == keystore.funded
    {
      var progress := keystore.IndexingProgress();
      funded, served := keystore.funded, 0;
      var slice, done := 0, false;
      ghost var o := Slices(site, env, 0, keystore.Stored(), progress, funded);
      while slice < MAX_SLICES && !done
        invariant slice <= MAX_SLICES && funded == keystore.funded
        invariant !done ==> o == Slices(site, env, slice, keystore.Stored(), progress, funded)
        invariant done ==> o == Finish(keystore.Stored(), Complete, served)
      {
        var before := progress;
        SliceSaved(site, env, slice, progress, funded);
        var s := DiscoverScriptHexes(site, env, slice, progress, funded);
        if s.ending == Aborted {
          return Aborted, s.funded, s.served;
        }
        progress, funded, served := s.progress, s.funded, s.served;
        var ok := keystore.SetIndexingProgress(progress, env.progressSaves(slice));
        if !ok {
          return Aborted, funded, served;
        }
        done := s.ending == Complete;
        if !done && progress == before {
          return Paused, funded, served;
        }
        slice := slice + 1;
      }
      if !done {
        return Paused, funded, 0;
      }
      var ok := keystore.MarkAddressScanComplete(env.completionSaves);
      ending := if ok then Complete else Aborted;
    }

    method ExtendFundedFromPrecachedBalances(w: World, net: Network) returns (ok: bool, funded: seq<string>)
      modifies keystore
      ensures ok == (net.precached == [] || (net.answers && (net.unlocked ==> net.saves)))
      ensures ok ==> funded == if net.precached == [] then old(keystore.funded)
                               else Extended(w, old(keystore.funded), Chunk(net.precached), 0)
      ensures keystore.Stored() == if ok && net.precached != [] && net.unlocked
                                   then old(keystore.Stored()).(funded := funded) else old(keystore.Stored())
    {
      funded := keystore.funded;
      if net.precached == [] {
        return true, funded;
      }
      var chunk := Chunk(net.precached);
      if !net.answers {
        return false, funded;
      }
      var k := 0;
      while k < |chunk|
        invariant 0 <= k <= |chunk|
        invariant Extended(w, keystore.funded, chunk, 0) == Extended(w, funded, chunk, k)
      {
        if w.balance(chunk[k]) > 0 && chunk[k] !in funded {
          funded := funded + [chunk[k]];
        }
        k := k + 1;
      }
      ok := true;
      if net.unlocked {
        ok := keystore.SetFundedScriptHexes(funded, net.saves);
      }
    }

    method RefreshUtxos(net: Network, admitted: bool) returns (ok: bool)
      modifies keystore
      ensures Report(keystore.Stored(), ok) == Listed(old(keystore.Stored()), net, admitted)
    {
      ok := admitted && net.listed.Some?;
      if ok {
        keystore.RegisterAll(net.listed.value, net.registers);
      }
    }

    method RefreshUtxosFromNetwork(w: World, net: Network) returns (ok: bool)
      modifies keystore
      ensures Report(keystore.Stored(), ok) == Refreshed(w, old(keystore.Stored()), net)
    {
      var extended, funded := ExtendFundedFromPrecachedBalances(w, net);
      if !extended {
        return false;
      }
      ok := true;
      if funded != [] {
        ok := RefreshUtxos(net, true);
      }
    }

    /** Also returns whether the scan is complete, as reported when there is no error. */
    method Sync(site: Site, env: Env, net: Network) returns (ok: bool, complete: bool)
      modifies keystore
      ensures Report(keystore.Stored(), ok) == Synced(site, old(keystore.Stored()), env, net)
      ensures ok ==> complete == keystore.scanComplete
    {
      if !keystore.scanComplete {
        if !net.unlocked {
          return true, false;
        }
        var ending, funded, served := RunGapScan(site, env);
        ok := ending != Aborted;
        if ending == Complete && funded != [] {
          ok := RefreshUtxos(net, env.lists(served, |funded|));
        }
      } else {
        ok := RefreshUtxosFromNetwork(site.world, net);
      }
      complete := keystore.scanComplete;
    }

    /**
     * A rescan is refused while one is running, while the first scan is not finished and no rescan was asked
     * for before, and for some time after the last one. Its time is stored before the positions are reset.
     */
    method BeginManualRescan(cache: SqliteWalletCache, unlocked: bool, inFlight: bool, now: U64, saves: bool)
      returns (ok: bool)
      modifies keystore, cache
      ensures var a := Attempt(unlocked, inFlight, old(keystore.scanComplete), now, saves);
              && ok == (Admitted(old(cache.meta), a) && saves)
              && cache.meta == MetaAfter(old(cache.meta), a) && cache.table == old(cache.table)
              && keystore.Stored() == if ok then Record(false, old(keystore.funded), NOTHING_SCANNED)
                                      else old(keystore.Stored())
    {
      if !unlocked {
        return false;
      }
      if inFlight {
        return false;
      }
      var last := cache.GetMeta(LAST_MANUAL_RESCAN_META);
      if !keystore.scanComplete && last.None? {
        return false;
      }
      var remaining := CooldownRemaining(last, now);
      if remaining > 0 {
        return false;
      }
      cache.SetMeta(LAST_MANUAL_RESCAN_META, Decimal(now));
      ok := keystore.MarkAddressScanIncomplete(saves);
      if ok {
        cache.SetMeta(PRECACHE_PROBE_COMPLETE_META, "0");
        cache.SetMeta(PRECACHE_PROBE_OFFSET_META, "0");
      }
    }
  }

  method BatchScripts(w: World, chain: HdChain, from: nat, until: nat) returns (batch: seq<string>)
    requires from <= until
    ensures batch == Scripts(w, chain, from, until)
  {
    batch := [];
    for i := from to until
      invariant batch == Scripts(w, chain, from, i)
    {
      batch := batch + [w.script(chain, i)];
    }
  }
}
