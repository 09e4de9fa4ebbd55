/** Balances from the cache, eviction of stale entries, and the update after a payment. */
module WalletCache {
  import opened Bytes
  import opened Hex
  import opened History
  import opened KeySet
  import opened Keystore
  import opened Outcome
  import opened UtxoTable
  import opened Verify
  import opened Wallet
  import opened Wire

  const OPTIMISTIC_UTXO_META := "optimistic_utxo_keys"
  const LAST_ELECTRUM_UTXO_META := "last_electrum_utxo_keys"

  // ---------------------------------------------------------------- sums

  function Without(t: Table, ks: set<Outpoint>): Table {
    map k | k in t && k !in ks :: t[k]
  }

  function Only(t: Table, ks: set<Outpoint>): Table {
    map k | k in t && k in ks :: t[k]
  }

  function Confirmed(t: Table): Table {
    map k | k in t && t[k].value.height > 0 :: t[k]
  }

  function Unconfirmed(t: Table): Table {
    map k | k in t && t[k].value.height == 0 :: t[k]
  }

  /** The sats in a table. */
  ghost function Worth(t: Table): int
    decreases |t|
  {
    if t == map[] then 0
    else
      var k :| k in t;
      assert |Without(t, {k})| < |t| by { WithoutSmaller(t, k); }
      t[k].value.sats + Worth(Without(t, {k}))
  }

  lemma {:induction false} WithoutSmaller(t: Table, k: Outpoint)
    requires k in t
    ensures |Without(t, {k})| == |t| - 1
  {
    assert Without(t, {k}).Keys == t.Keys - {k};
  }

  lemma {:induction false} WorthRemove(t: Table, k: Outpoint)
    requires k in t
    ensures Worth(t) == t[k].value.sats + Worth(Without(t, {k}))
    decreases |t|
  {
    var first :| first in t && Worth(t) == t[first].value.sats + Worth(Without(t, {first}));
    if first != k {
      WithoutSmaller(t, k);
      WithoutSmaller(t, first);
      WorthRemove(Without(t, {first}), k);
      WorthRemove(Without(t, {k}), first);
      assert Without(Without(t, {first}), {k}) == Without(Without(t, {k}), {first});
    }
  }

  lemma {:induction false} WorthAdd(t: Table, k: Outpoint, row: Row)
    requires k !in t
    ensures Worth(t[k := row]) == Worth(t) + row.value.sats
  {
    WorthRemove(t[k := row], k);
    assert Without(t[k := row], {k}) == t;
  }

  // ---------------------------------------------------------------- trust and eviction

  /** An unconfirmed entry stays while it is our own, the last listing had it, or there was no listing yet. */
  predicate Trusted(meta: Meta, k: Outpoint) {
    || k in ParsedKeys(MetaAt(meta, OPTIMISTIC_UTXO_META))
    || LAST_ELECTRUM_UTXO_META !in meta
    || k in ParsedKeys(MetaAt(meta, LAST_ELECTRUM_UTXO_META))
  }

  function Kept(t: Table, meta: Meta): Table {
    map k | k in t && (t[k].value.height > 0 || Trusted(meta, k)) :: t[k]
  }

  /** The table and the two sums when the entries `done` have been looked at. */
  ghost function TableAt(t: Table, meta: Meta, done: set<Outpoint>): Table {
    Without(t, done - Kept(t, meta).Keys)
  }

  ghost function ConfirmedAt(t: Table, meta: Meta, done: set<Outpoint>): int {
    Worth(Only(Confirmed(Kept(t, meta)), done))
  }

  ghost function UnconfirmedAt(t: Table, meta: Meta, done: set<Outpoint>): int {
    Worth(Only(Unconfirmed(Kept(t, meta)), done))
  }

  lemma {:induction false} BalanceStart(t: Table, meta: Meta)
    ensures TableAt(t, meta, {}) == t && ConfirmedAt(t, meta, {}) == 0 && UnconfirmedAt(t, meta, {}) == 0
  {
    assert Only(Confirmed(Kept(t, meta)), {}) == map[] && Only(Unconfirmed(Kept(t, meta)), {}) == map[];
  }

  lemma {:induction false} BalanceStep(t: Table, meta: Meta, done: set<Outpoint>, k: Outpoint)
    requires k in t && k !in done
    ensures ConfirmedAt(t, meta, done + {k})
         == ConfirmedAt(t, meta, done) + if t[k].value.height > 0 then t[k].value.sats else 0
    ensures UnconfirmedAt(t, meta, done + {k})
         == UnconfirmedAt(t, meta, done) + if t[k].value.height == 0 && Trusted(meta, k) then t[k].value.sats else 0
  {
    OnlyMore(Confirmed(Kept(t, meta)), done, k);
    OnlyMore(Unconfirmed(Kept(t, meta)), done, k);
  }

  lemma {:induction false} TableStep(t: Table, meta: Meta, done: set<Outpoint>, k: Outpoint)
    requires k in t && k !in done
    ensures TableAt(t, meta, done + {k})
         == if t[k].value.height > 0 || Trusted(meta, k) then TableAt(t, meta, done) else TableAt(t, meta, done) - {k}
  {
    var kept := Kept(t, meta);
    if k in kept {
      assert done + {k} - kept.Keys == done - kept.Keys;
    }
  }

  lemma {:induction false} BalanceEnd(t: Table, meta: Meta)
    ensures TableAt(t, meta, t.Keys) == Kept(t, meta)
    ensures ConfirmedAt(t, meta, t.Keys) == Worth(Confirmed(Kept(t, meta)))
    ensures UnconfirmedAt(t, meta, t.Keys) == Worth(Unconfirmed(Kept(t, meta)))
  {
    var kept := Kept(t, meta);
    assert Only(Confirmed(kept), t.Keys) == Confirmed(kept);
    assert Only(Unconfirmed(kept), t.Keys) == Unconfirmed(kept);
  }

  datatype Tally = Tally(table: Table, confirmed: int, unconfirmed: int)

  /** The loop over the first n entries listed. */
  function Tallied(t: Table, meta: Meta, listed: seq<Utxo>, n: nat): Tally
    requires n <= |listed|
  {
    if n == 0 then Tally(t, 0, 0)
    else
      var s, u := Tallied(t, meta, listed, n - 1), listed[n - 1];
      if u.height > 0 then s.(confirmed := s.confirmed + u.valueSats)
      else if Trusted(meta, KeyOf(u)) then s.(unconfirmed := s.unconfirmed + u.valueSats)
      else s.(table := s.table - {KeyOf(u)})
  }

  ghost function StateAt(t: Table, meta: Meta, done: set<Outpoint>): Tally {
    Tally(TableAt(t, meta, done), ConfirmedAt(t, meta, done), UnconfirmedAt(t, meta, done))
  }

  lemma {:induction false} TalliedStep(t: Table, meta: Meta, listed: seq<Utxo>, n: nat, done: set<Outpoint>)
    requires n < |listed| && listed[n] == UtxoAt(t, KeyOf(listed[n]))
    requires KeyOf(listed[n]) in t && KeyOf(listed[n]) !in done
    requires Tallied(t, meta, listed, n) == StateAt(t, meta, done)
    ensures Tallied(t, meta, listed, n + 1) == StateAt(t, meta, done + {KeyOf(listed[n])})
  {
    BalanceStep(t, meta, done, KeyOf(listed[n]));
    TableStep(t, meta, done, KeyOf(listed[n]));
  }

  lemma {:induction false} TalliedAt(t: Table, meta: Meta, listed: seq<Utxo>, n: nat)
    requires Listing(t, listed) && n <= |listed|
    ensures Tallied(t, meta, listed, n) == StateAt(t, meta, Keys(listed[..n]))
  {
    if n == 0 {
      BalanceStart(t, meta);
      assert Keys(listed[..0]) == {};
    } else {
      TalliedAt(t, meta, listed, n - 1);
      PrefixKeys(listed, n - 1);
      assert KeyOf(listed[n - 1]) in Keys(listed);
      TalliedStep(t, meta, listed, n - 1, Keys(listed[..n - 1]));
    }
  }

  method BalanceFromUtxoCache(cache: SqliteWalletCache) returns (confirmed: int, unconfirmed: int)
    modifies cache
    ensures cache.table == Kept(old(cache.table), cache.meta) && cache.meta == old(cache.meta)
    ensures confirmed == Worth(Confirmed(cache.table)) && unconfirmed == Worth(Unconfirmed(cache.table))
  {
    confirmed, unconfirmed := 0, 0;
    ghost var t, meta := cache.table, cache.meta;
    var utxos := cache.ListUtxos();
    var stored := cache.GetMeta(OPTIMISTIC_UTXO_META);
    var optimistic := ParseUtxoKeySet(stored);
    stored := cache.GetMeta(LAST_ELECTRUM_UTXO_META);
    var electrumKeys := ParseUtxoKeySet(stored);
    var snapshotReady := stored.Some?;
    for i := 0 to |utxos|
      invariant cache.meta == meta
      invariant Tallied(t, meta, utxos, i) == Tally(cache.table, confirmed, unconfirmed)
    {
      var u := utxos[i];
      if u.height > 0 {
        confirmed := confirmed + u.valueSats;
        continue;
      }
      var k := Outpoint(u.txid, u.vout);
      var trusted := k in optimistic || (snapshotReady && k in electrumKeys);
      if trusted {
        unconfirmed := unconfirmed + u.valueSats;
      } else if snapshotReady {
        var _ := cache.RemoveUtxo(k);
      } else {
        unconfirmed := unconfirmed + u.valueSats;
      }
    }
    TalliedAt(t, meta, utxos, |utxos|);
    assert utxos[..|utxos|] == utxos;
    BalanceEnd(t, meta);
  }

  lemma {:induction false} PrefixKeys(utxos: seq<Utxo>, i: nat)
    requires i < |utxos| && Distinct(utxos)
    ensures Keys(utxos[..i + 1]) == Keys(utxos[..i]) + {KeyOf(utxos[i])} && KeyOf(utxos[i]) !in Keys(utxos[..i])
  {
    assert utxos[..i + 1] == utxos[..i] + [utxos[i]];
    KeysAppend(utxos[..i], utxos[i]);
  }

  lemma {:induction false} OnlyMore(t: Table, ks: set<Outpoint>, k: Outpoint)
    requires k !in ks
    ensures Worth(Only(t, ks + {k})) == Worth(Only(t, ks)) + if k in t then t[k].value.sats else 0
  {
    if k in t {
      WorthAdd(Only(t, ks), k, t[k]);
      assert Only(t, ks + {k}) == Only(t, ks)[k := t[k]];
    } else {
      assert Only(t, ks + {k}) == Only(t, ks);
    }
  }

  /** Looking at the balance again changes nothing, and the two parts are the worth of the whole table. */
  lemma {:induction false} BalanceFacts(t: Table, meta: Meta)
    ensures Kept(Kept(t, meta), meta) == Kept(t, meta)
    ensures Worth(Confirmed(t)) + Worth(Unconfirmed(t)) == Worth(t)
  {
    WorthSplit(t);
  }

  lemma {:induction false} WorthSplit(t: Table)
    ensures Worth(Confirmed(t)) + Worth(Unconfirmed(t)) == Worth(t)
    decreases |t|
  {
    if k :| k in t {
      var rest := Without(t, {k});
      WithoutSmaller(t, k);
      WorthSplit(rest);
      WorthRemove(t, k);
      if t[k].value.height > 0 {
        WorthRemove(Confirmed(t), k);
        assert Without(Confirmed(t), {k}) == Confirmed(rest) && Unconfirmed(t) == Unconfirmed(rest);
      } else {
        WorthRemove(Unconfirmed(t), k);
        assert Without(Unconfirmed(t), {k}) == Unconfirmed(rest) && Confirmed(t) == Confirmed(rest);
      }
    }
  }

  // ---------------------------------------------------------------- key sets in the metadata

  function KeyList(utxos: seq<Utxo>): seq<Outpoint> {
    seq(|utxos|, i requires 0 <= i < |utxos| => KeyOf(utxos[i]))
  }

  method StoreLastElectrumUtxoKeys(cache: SqliteWalletCache, utxos: seq<Utxo>)
    modifies cache
    ensures cache.meta == old(cache.meta)[LAST_ELECTRUM_UTXO_META := PrintKeys(KeyList(utxos))]
    ensures cache.table == old(cache.table)
  {
    cache.SetMeta(LAST_ELECTRUM_UTXO_META, PrintKeys(KeyList(utxos)));
  }

  /** The stored set with one more key, printed in some order. */
  ghost predicate OptimisticAdded(meta: Meta, k: Outpoint, after: Meta) {
    exists keys: seq<Outpoint> ::
      && (set x | x in keys) == ParsedKeys(MetaAt(meta, OPTIMISTIC_UTXO_META)) + {k}
      && after == meta[OPTIMISTIC_UTXO_META := PrintKeys(keys)]
  }

  method RegisterOptimisticUtxo(cache: SqliteWalletCache, txid: string, vout: U32)
    modifies cache
    ensures OptimisticAdded(old(cache.meta), Outpoint(txid, vout), cache.meta)
    ensures cache.table == old(cache.table)
  {
    var meta := cache.GetMeta(OPTIMISTIC_UTXO_META);
    var keys := ParseUtxoKeySet(meta);
    keys := keys + {Outpoint(txid, vout)};
    var order: seq<Outpoint> := [];
    var rest := keys;
    while rest != {}
      invariant rest <= keys && forall x :: x in order <==> x in keys && x !in rest
    {
      var k :| k in rest;
      order := order + [k];
      rest := rest - {k};
    }
    cache.SetMeta(OPTIMISTIC_UTXO_META, PrintKeys(order));
  }

  /** Reading the set back: exactly the old keys and the new one, provided its id is clean. */
  lemma {:induction false} OptimisticReadsBack(meta: Meta, k: Outpoint, after: Meta)
    requires OptimisticAdded(meta, k, after)
    ensures ParsedKeys(MetaAt(after, OPTIMISTIC_UTXO_META)) == ParsedKeys(MetaAt(meta, OPTIMISTIC_UTXO_META)) + {k}
        <==> CleanTxid(k.txid)
    ensures MetaAt(after, LAST_ELECTRUM_UTXO_META) == MetaAt(meta, LAST_ELECTRUM_UTXO_META)
  {
    var before := ParsedKeys(MetaAt(meta, OPTIMISTIC_UTXO_META));
    var keys: seq<Outpoint> :|
      (set x | x in keys) == before + {k} && after == meta[OPTIMISTIC_UTXO_META := PrintKeys(keys)];
    KeysRoundTripIff(keys);
    ParsedAreClean(MetaAt(meta, OPTIMISTIC_UTXO_META));
    assert forall x :: x in keys <==> x in before + {k};
  }

  // ---------------------------------------------------------------- after a payment

  function ChangeEntry(txid: string, vout: U32, change: I64, script: Text, address: string): Utxo {
    Utxo(txid, vout, change, 0, address, script)
  }

  method RemoveSpent(cache: SqliteWalletCache, spent: seq<Utxo>)
    modifies cache
    ensures cache.table == Without(old(cache.table), Keys(spent)) && cache.meta == old(cache.meta)
  {
    assert cache.table == Without(cache.table, Keys(spent[..0]));
    for i := 0 to |spent|
      invariant cache.meta == old(cache.meta)
      invariant cache.table == Without(old(cache.table), Keys(spent[..i]))
    {
      assert spent[..i + 1] == spent[..i] + [spent[i]];
      KeysAppend(spent[..i], spent[i]);
      var _ := cache.RemoveUtxo(KeyOf(spent[i]));
    }
    assert spent[..|spent|] == spent;
  }

  /** What the cache stores. */
  datatype Stored = Stored(table: Table, meta: Meta)

  /** The update's outcome for a transaction that was decoded. */
  ghost predicate UpdatedBy(c: Crypto, before: Stored, spent: seq<Utxo>, broadcastTxid: string, t: Tx, change: I64,
                            changeAddress: string, now: int, r: Result<()>, after: Stored) {
    var left := Without(before.table, Keys(spent));
    if change <= DUST_CHANGE_SATS || t.outputs == [] then r == Success(()) && after == Stored(left, before.meta)
    else
      match AddressToScript(c, changeAddress)
      case Failure(e) => r == Failure(e) && after == Stored(left, before.meta)
      case Success(script) =>
        var vout := (|t.outputs| - 1) % TWO_32;
        var entry := ChangeEntry(broadcastTxid, vout, change, HexEncode(script), changeAddress);
        && r == Success(())
        && after.table == Upserted(left, entry, now)
        && OptimisticAdded(before.meta, Outpoint(broadcastTxid, vout), after.meta)
  }

  ghost predicate SendUpdated(c: Crypto, before: Stored, spent: seq<Utxo>, broadcastTxid: string, signedHex: string,
                              change: I64, changeAddress: string, now: int, r: Result<()>, after: Stored) {
    match DecodeHexTx(signedHex)
    case Failure(e) => r == Failure(e) && after == before
    case Success(t) => UpdatedBy(c, before, spent, broadcastTxid, t, change, changeAddress, now, r, after)
  }

  method UpdateOutputs(c: Crypto, cache: SqliteWalletCache, spent: seq<Utxo>, broadcastTxid: string, t: Tx,
                       change: I64, changeAddress: string, now: int)
    returns (r: Result<()>)
    modifies cache
    ensures UpdatedBy(c, old(Stored(cache.table, cache.meta)), spent, broadcastTxid, t, change, changeAddress, now, r,
                      Stored(cache.table, cache.meta))
  {
    RemoveSpent(cache, spent);
    if change > DUST_CHANGE_SATS && |t.outputs| > 0 {
      var script :- AddressToScript(c, changeAddress);
      var vout: U32 := (|t.outputs| - 1) % TWO_32;
      cache.UpsertUtxo(ChangeEntry(broadcastTxid, vout, change, HexEncode(script), changeAddress), now);
      RegisterOptimisticUtxo(cache, broadcastTxid, vout);
    }
    return Success(());
  }

  /** The scripts of the coins spent, and of the change if there is any. */
  function SentScripts(c: Crypto, spent: seq<Utxo>, change: I64, changeAddress: string): seq<string> {
    seq(|spent|, k requires 0 <= k < |spent| => spent[k].scriptHex) + ChangeScripts(c, change, changeAddress)
  }

  function ChangeScripts(c: Crypto, change: I64, changeAddress: string): seq<string> {
    if change <= DUST_CHANGE_SATS then []
    else
      match AddressToScript(c, changeAddress)
      case Failure(_) => []
      case Success(script) => [HexEncode(script)]
  }

  /** The rows made from the transaction, merged into the history as pending ones. */
  function HistoryAfter(rows: Rows, signedHex: string, rowsFrom: Tx -> seq<WalletTx>, r: Result<()>): Rows {
    match DecodeHexTx(signedHex)
    case Failure(_) => rows
    case Success(t) => if r.Failure? then rows else Merged(rows, rowsFrom(t), |rowsFrom(t)|)
  }

  /**
   * The whole update after a payment: outputs, then history rows, then scripts. If the outputs cannot be updated
   * nothing else is; a script whose write fails is not registered.
   */
  method ApplyLocalSendCacheUpdate(
    c: Crypto, cache: SqliteWalletCache, txCache: TxCache, index: KeystoreService, spent: seq<Utxo>,
    broadcastTxid: string, signedHex: string, change: I64, changeAddress: string, rowsFrom: Tx -> seq<WalletTx>,
    registers: nat -> bool, now: int) returns (r: Result<()>)
    requires txCache.Valid()
    modifies cache, txCache, index
    ensures SendUpdated(c, old(Stored(cache.table, cache.meta)), spent, broadcastTxid, signedHex, change, changeAddress,
                        now, r, Stored(cache.table, cache.meta))
    ensures txCache.Valid() && txCache.rows == HistoryAfter(old(txCache.rows), signedHex, rowsFrom, r)
    ensures index.Stored()
         == if r.Failure? then old(index.Stored())
            else old(index.Stored()).(
              funded := AllRegistered(old(index.funded), SentScripts(c, spent, change, changeAddress), registers, 0))
  {
    var t :- DecodeHexTx(signedHex);
    var _ :- UpdateOutputs(c, cache, spent, broadcastTxid, t, change, changeAddress, now);
    txCache.AppendLocalTxHistoryRows(rowsFrom(t));
    index.RegisterAll(SentScripts(c, spent, change, changeAddress), registers);
    return Success(());
  }

  // ---------------------------------------------------------------- eviction, in terms of what was listed

  /** Before any listing nothing is evicted. */
  lemma {:induction false} NothingListedYet(t: Table, meta: Meta)
    requires LAST_ELECTRUM_UTXO_META !in meta
    ensures Kept(t, meta) == t
  {
  }

  /** After a listing is stored, exactly the unconfirmed rows go that it does not hold and no payment registered. */
  lemma {:induction false} KeptAfterListing(t: Table, meta: Meta, utxos: seq<Utxo>, k: Outpoint)
    requires forall u :: u in utxos ==> CleanTxid(u.txid)
    ensures var after := meta[LAST_ELECTRUM_UTXO_META := PrintKeys(KeyList(utxos))];
            k in Kept(t, after) <==>
              && k in t
              && (t[k].value.height >= 1 || k in ParsedKeys(MetaAt(meta, OPTIMISTIC_UTXO_META))
                  || exists i :: 0 <= i < |utxos| && utxos[i].txid == k.txid && utxos[i].vout == k.vout)
    ensures var after := meta[LAST_ELECTRUM_UTXO_META := PrintKeys(KeyList(utxos))];
            k in Kept(t, after) ==> Kept(t, after)[k] == t[k]
  {
    var keys := KeyList(utxos);
    KeysRoundTrip(keys);
    if k in keys {
      var i :| 0 <= i < |keys| && keys[i] == k;
      assert utxos[i].txid == k.txid && utxos[i].vout == k.vout;
    }
    if i :| 0 <= i < |utxos| && utxos[i].txid == k.txid && utxos[i].vout == k.vout {
      assert keys[i] == k;
    }
  }
}
