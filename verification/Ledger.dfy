/** The cached outputs after a payment agree with the transaction that was sent. */
module Ledger {
  import opened Bytes
  import opened FeePlan
  import opened Hex
  import opened History
  import opened KeySet
  import opened Keystore
  import opened Outcome
  import opened ScriptCode
  import opened Send
  import opened Signer
  import opened SignVerify
  import opened TxSize
  import opened UtxoPrep
  import opened UtxoTable
  import opened Verify
  import opened Wallet
  import opened WalletCache
  import opened Wire

  /** The table after a payment with a change entry. */
  function AfterSend(t: Table, spent: set<Outpoint>, entry: Utxo, now: int): Table {
    Upserted(Without(t, spent), entry, now)
  }

  /** Applying the update twice leaves the rows, and the registered keys, that applying it once leaves. */
  lemma {:induction false} SendTwiceIsOnce(t: Table, spent: set<Outpoint>, entry: Utxo, now: int, later: int,
                                           meta: Meta, once: Meta, twice: Meta)
    requires KeyOf(entry) !in spent
    requires OptimisticAdded(meta, KeyOf(entry), once) && OptimisticAdded(once, KeyOf(entry), twice)
    ensures AfterSend(AfterSend(t, spent, entry, now), spent, entry, later) == AfterSend(t, spent, entry, now)
    ensures CleanTxid(entry.txid) ==>
      ParsedKeys(MetaAt(twice, OPTIMISTIC_UTXO_META)) == ParsedKeys(MetaAt(once, OPTIMISTIC_UTXO_META))
    ensures twice[OPTIMISTIC_UTXO_META := ""] == once[OPTIMISTIC_UTXO_META := ""]
  {
    assert Without(AfterSend(t, spent, entry, now), spent) == AfterSend(t, spent, entry, now);
    OptimisticReadsBack(meta, KeyOf(entry), once);
    OptimisticReadsBack(once, KeyOf(entry), twice);
  }

  // ---------------------------------------------------------------- the next balance

  /** The next balance keeps the new entry exactly when its id can be stored, or nothing was listed yet. */
  lemma {:induction false} ChangeIsKeptIff(t: Table, meta: Meta, spent: set<Outpoint>, entry: Utxo, now: int,
                                           after: Meta)
    requires entry.height == 0 && OptimisticAdded(meta, KeyOf(entry), after)
    ensures KeyOf(entry) in Kept(AfterSend(t, spent, entry, now), after)
        <==> CleanTxid(entry.txid) || LAST_ELECTRUM_UTXO_META !in meta
  {
    OptimisticReadsBack(meta, KeyOf(entry), after);
    ParsedAreClean(MetaAt(after, OPTIMISTIC_UTXO_META));
    ParsedAreClean(MetaAt(after, LAST_ELECTRUM_UTXO_META));
    assert LAST_ELECTRUM_UTXO_META in after <==> LAST_ELECTRUM_UTXO_META in meta;
  }

  /** Nothing else is evicted or rescued: the kept table is the old one without the spent outputs, with the entry. */
  lemma {:induction false} KeptAfterSend(t: Table, meta: Meta, spent: set<Outpoint>, entry: Utxo, now: int, after: Meta)
    requires entry.height == 0 && OptimisticAdded(meta, KeyOf(entry), after) && CleanTxid(entry.txid)
    ensures var kept := Kept(AfterSend(t, spent, entry, now), after);
            && KeyOf(entry) in kept && kept[KeyOf(entry)].value == ValueOf(entry)
            && Without(kept, {KeyOf(entry)}) == Without(Kept(t, meta), spent + {KeyOf(entry)})
  {
    TrustAfterSend(meta, KeyOf(entry), after);
  }

  /** A stored id is trusted from then on, and no other key's trust changes. */
  lemma {:induction false} TrustAfterSend(meta: Meta, key: Outpoint, after: Meta)
    requires OptimisticAdded(meta, key, after) && CleanTxid(key.txid)
    ensures forall k :: Trusted(after, k) <==> Trusted(meta, k) || k == key
  {
    OptimisticReadsBack(meta, key, after);
    assert LAST_ELECTRUM_UTXO_META in after <==> LAST_ELECTRUM_UTXO_META in meta;
  }

  /** The spent outputs, as the cache holds them. */
  ghost predicate Cached(t: Table, spent: seq<Utxo>) {
    && Distinct(spent)
    && forall i :: 0 <= i < |spent| ==> KeyOf(spent[i]) in t && t[KeyOf(spent[i])].value.sats == spent[i].valueSats
  }

  lemma {:induction false} WorthWithoutSpent(t: Table, spent: seq<Utxo>)
    requires Cached(t, spent)
    ensures Worth(Without(t, Keys(spent))) == Worth(t) - Total(spent)
    decreases |spent|
  {
    if spent == [] {
      assert Without(t, Keys(spent)) == t;
    } else {
      var k := KeyOf(spent[0]);
      var rest := Without(t, {k});
      WorthRemove(t, k);
      assert Cached(rest, spent[1..]) by {
        forall i | 0 <= i < |spent[1..]|
          ensures KeyOf(spent[1..][i]) in rest && rest[KeyOf(spent[1..][i])].value.sats == spent[1..][i].valueSats
        {
          assert spent[1..][i] == spent[i + 1];
        }
      }
      WorthWithoutSpent(rest, spent[1..]);
      KeysPrepend(spent[0], spent[1..]);
      assert spent == [spent[0]] + spent[1..];
      assert Without(t, Keys(spent)) == Without(rest, Keys(spent[1..]));
    }
  }

  /** The next balance: the old one, less what was spent, plus the change. */
  lemma {:induction false} BalanceWithChange(t: Table, meta: Meta, spent: seq<Utxo>, entry: Utxo, now: int, after: Meta)
    requires entry.height == 0 && OptimisticAdded(meta, KeyOf(entry), after) && CleanTxid(entry.txid)
    requires Cached(Kept(t, meta), spent) && (KeyOf(entry) in t ==> KeyOf(entry) in Keys(spent))
    ensures Worth(Kept(AfterSend(t, Keys(spent), entry, now), after))
         == Worth(Kept(t, meta)) - Total(spent) + entry.valueSats
  {
    var kept, k := Kept(AfterSend(t, Keys(spent), entry, now), after), KeyOf(entry);
    KeptAfterSend(t, meta, Keys(spent), entry, now, after);
    WorthRemove(kept, k);
    WorthWithoutSpent(Kept(t, meta), spent);
    assert Without(Kept(t, meta), Keys(spent) + {k}) == Without(Kept(t, meta), Keys(spent));
  }

  lemma {:induction false} BalanceWithoutChange(t: Table, meta: Meta, spent: seq<Utxo>)
    requires Cached(Kept(t, meta), spent)
    ensures Worth(Kept(Without(t, Keys(spent)), meta)) == Worth(Kept(t, meta)) - Total(spent)
  {
    WorthWithoutSpent(Kept(t, meta), spent);
    assert Kept(Without(t, Keys(spent)), meta) == Without(Kept(t, meta), Keys(spent));
  }

  // ---------------------------------------------------------------- against the transaction

  /** The change entry that the update makes for a completed payment. */
  function EntryOf(r: SendResult, changeAddress: string, script: Script): Utxo
    requires -TWO_63 <= r.change < TWO_63
  {
    ChangeEntry(r.txid, 1, r.change, HexEncode(script), changeAddress)
  }

  /** The transaction in the result decodes again, and the change entry is its last output, to the byte. */
  ghost predicate EntryIsLastOutput(c: Crypto, p: SendParams, r: SendResult, t: Tx) {
    && DecodeHexTx(r.rawHex) == Success(t)
    && (r.change > DUST_CHANGE_SATS ==>
          && |t.outputs| == 2 && t.outputs[1].value == r.change
          && AddressToScript(c, p.changeAddress) == Success(t.outputs[1].scriptPubKey))
    && (r.change <= DUST_CHANGE_SATS ==> |t.outputs| == 1)
  }

  /** What a payment leaves for the update to rely on. */
  ghost predicate Settled(c: Crypto, b: Backend, p: SendParams, r: SendResult, t: Tx) {
    && -TWO_63 <= r.change < TWO_63
    && r.change == Total(r.spent) - p.amount - r.fee
    && r.rawHex == HexEncode(EncodeTx(t)) && b.broadcast(r.rawHex) == Success(r.txid)
    && EntryIsLastOutput(c, p, r, t)
  }

  /** The result of a payment decodes to the transaction that was signed, whose last output is the change entry. */
  lemma {:induction false} EntryAgrees(c: Crypto, seed: Seed, b: Backend, p: SendParams, q: Quote, now: U32)
    requires Lawful(c) && ValidSeed(c, seed)
    requires MachineRange(q.selected, PaymentOf(p), q.fee) && Finished(c, seed, b, p, q, now).Success?
    ensures var t := SpendTx(c, seed, q.selected, PaymentOf(p), p.changeAddress, q.fee, now).value;
            Settled(c, b, p, Finished(c, seed, b, p, q, now).value, t)
  {
    var outputs := PaymentOf(p);
    var t := SpendTx(c, seed, q.selected, outputs, p.changeAddress, q.fee, now).value;
    OnePayment(p);
    SpendFacts(c, seed, q.selected, outputs, p.changeAddress, q.fee, now);
    AssembledOutputs(c, seed, q.selected, outputs, p.changeAddress, q.fee, now);
    ChangeScript(c, seed, q.selected, outputs, p.changeAddress, q.fee, now);
    DecodeSerialized(t);
  }

  /** The rows that the update leaves after a settled payment. */
  ghost predicate RowsAfter(p: SendParams, r: SendResult, tx: Tx, before: Stored, at: int, after: Stored)
    requires -TWO_63 <= r.change < TWO_63 && (r.change > DUST_CHANGE_SATS ==> |tx.outputs| == 2)
  {
    if r.change <= DUST_CHANGE_SATS then after == Stored(Without(before.table, Keys(r.spent)), before.meta)
    else
      var entry := EntryOf(r, p.changeAddress, tx.outputs[1].scriptPubKey);
      && after.table == AfterSend(before.table, Keys(r.spent), entry, at)
      && OptimisticAdded(before.meta, Outpoint(r.txid, 1), after.meta)
  }

  /** After a settled payment the update cannot fail, and makes the entry that is the last output. */
  lemma {:induction false} UpdateSucceeds(c: Crypto, b: Backend, p: SendParams, r: SendResult, tx: Tx,
                                          before: Stored, at: int,
                                          ok: Result<()>, after: Stored)
    requires Settled(c, b, p, r, tx)
    requires SendUpdated(c, before, r.spent, r.txid, r.rawHex, r.change, p.changeAddress, at, ok, after)
    ensures ok == Success(()) && RowsAfter(p, r, tx, before, at, after)
  {
    DecodedUpdate(c, before, r.spent, r.txid, r.rawHex, tx, r.change, p.changeAddress, at, ok, after);
    RowsFromUpdate(c, p, r, tx, before, at, ok, after);
  }

  lemma {:induction false} DecodedUpdate(c: Crypto, before: Stored, spent: seq<Utxo>, txid: string, hex: string, t: Tx,
                                         change: I64, changeAddress: string, now: int, ok: Result<()>, after: Stored)
    requires DecodeHexTx(hex) == Success(t)
    requires SendUpdated(c, before, spent, txid, hex, change, changeAddress, now, ok, after)
    ensures UpdatedBy(c, before, spent, txid, t, change, changeAddress, now, ok, after)
  {
  }

  lemma {:induction false} RowsFromUpdate(c: Crypto, p: SendParams, r: SendResult, tx: Tx, before: Stored, at: int,
                                          ok: Result<()>, after: Stored)
    requires -TWO_63 <= r.change < TWO_63
    requires r.change > DUST_CHANGE_SATS ==>
      |tx.outputs| == 2 && AddressToScript(c, p.changeAddress) == Success(tx.outputs[1].scriptPubKey)
    requires UpdatedBy(c, before, r.spent, r.txid, tx, r.change, p.changeAddress, at, ok, after)
    ensures ok == Success(()) && RowsAfter(p, r, tx, before, at, after)
  {
  }

  // ---------------------------------------------------------------- the next balance, from what was known before

  /** If the cache knew what was spent, its next balance is lower by the amount, the fee and any dust left behind. */
  ghost predicate BalanceDrops(p: SendParams, r: SendResult, before: Stored, after: Stored) {
    var dust := if r.change > DUST_CHANGE_SATS then 0 else r.change;
    Worth(Kept(after.table, after.meta)) == Worth(Kept(before.table, before.meta)) - p.amount - r.fee - dust
  }

  lemma {:induction false} BalanceFollows(c: Crypto, b: Backend, p: SendParams, r: SendResult, tx: Tx,
                                          before: Stored, at: int,
                                          after: Stored)
    requires Settled(c, b, p, r, tx) && RowsAfter(p, r, tx, before, at, after)
    requires Cached(Kept(before.table, before.meta), r.spent)
    requires Outpoint(r.txid, 1) !in before.table && CleanTxid(r.txid)
    ensures BalanceDrops(p, r, before, after)
  {
    if r.change <= DUST_CHANGE_SATS {
      BalanceWithoutChange(before.table, before.meta, r.spent);
    } else {
      var entry := EntryOf(r, p.changeAddress, tx.outputs[1].scriptPubKey);
      BalanceWithChange(before.table, before.meta, r.spent, entry, at, after.meta);
    }
  }

  predicate SameCoin(r: Result<Utxo>, u: Utxo) {
    r.Success? ==> KeyOf(r.value) == KeyOf(u) && r.value.valueSats == u.valueSats
  }

  /** The chain shows the coin under the outpoint and with the value that the wallet has for it. */
  predicate Unchanged(c: Crypto, b: Backend, u: Utxo) {
    SameCoin(Refreshed(c, b, u), u)
  }

  /** The coins offered for the payment are rows of the cache that the next balance keeps, and the chain agrees. */
  ghost predicate KnownCoins(c: Crypto, b: Backend, p: SendParams, s: Stored) {
    Cached(Kept(s.table, s.meta), p.utxos) && forall u :: u in p.utxos ==> Unchanged(c, b, u)
  }

  lemma {:induction false} CachedWithout(t: Table, whole: seq<Utxo>, i: nat)
    requires Cached(t, whole) && i < |whole|
    ensures Cached(t, WithoutAt(whole, i))
    ensures forall j :: 0 <= j < |WithoutAt(whole, i)| ==> KeyOf(WithoutAt(whole, i)[j]) != KeyOf(whole[i])
  {
    var rest := WithoutAt(whole, i);
    assert forall j :: 0 <= j < |rest| ==> rest[j] == if j < i then whole[j] else whole[j + 1];
  }

  lemma {:induction false} CachedPart(t: Table, part: seq<Utxo>, whole: seq<Utxo>)
    requires Cached(t, whole) && multiset(part) <= multiset(whole)
    ensures Cached(t, part) && forall u :: u in part ==> u in whole
    decreases |whole|
  {
    if part != [] {
      assert part[0] in multiset(whole);
      var i :| 0 <= i < |whole| && whole[i] == part[0];
      PartWithout(part, whole, i);
      CachedWithout(t, whole, i);
      CachedPart(t, part[1..], WithoutAt(whole, i));
      AddCached(t, part, WithoutAt(whole, i));
      PartIn(part, whole, i);
    }
  }

  lemma {:induction false} PartIn(part: seq<Utxo>, whole: seq<Utxo>, i: nat)
    requires part != [] && i < |whole| && whole[i] == part[0] && forall u :: u in part[1..] ==> u in WithoutAt(whole, i)
    ensures forall u :: u in part ==> u in whole
  {
    assert part == [part[0]] + part[1..];
    WithoutAtFacts(_ => 0, whole, i);
  }

  lemma {:induction false} AddCached(t: Table, part: seq<Utxo>, rest: seq<Utxo>)
    requires part != [] && Cached(t, part[1..]) && forall u :: u in part[1..] ==> u in rest
    requires KeyOf(part[0]) in t && t[KeyOf(part[0])].value.sats == part[0].valueSats
    requires forall j :: 0 <= j < |rest| ==> KeyOf(rest[j]) != KeyOf(part[0])
    ensures Cached(t, part)
  {
    assert part == [part[0]] + part[1..];
    forall j | 1 <= j < |part|
      ensures KeyOf(part[j]) != KeyOf(part[0])
    {
      assert part[j] == part[1..][j - 1] && part[j] in rest;
    }
  }

  /** The coins finally spent are then rows of the cache as well. */
  lemma {:induction false} SpentIsCached(c: Crypto, b: Backend, p: SendParams, s: Stored)
    requires KnownCoins(c, b, p, s) && Quoted(c, b, p).Success?
    ensures Cached(Kept(s.table, s.meta), Quoted(c, b, p).value.selected)
  {
    var plan := Plan(p.utxos, p.amount, EffectiveUserRate(p.rate), 1).value.0;
    PlannedFrom(p.utxos, p.amount, EffectiveUserRate(p.rate));
    CachedPart(Kept(s.table, s.meta), plan, p.utxos);
    RefreshedCached(c, b, Kept(s.table, s.meta), plan);
  }

  lemma {:induction false} RefreshedCached(c: Crypto, b: Backend, t: Table, plan: seq<Utxo>)
    requires Cached(t, plan) && Collect(|plan|, RefreshAt(c, b, plan), 0).Success?
    requires forall u :: u in plan ==> Unchanged(c, b, u)
    ensures Cached(t, Collect(|plan|, RefreshAt(c, b, plan), 0).value)
  {
    forall k: nat | k < |plan|
      ensures SameCoin(RefreshAt(c, b, plan)(k), plan[k])
    {
      assert Unchanged(c, b, plan[k]);
    }
    CollectedCached(t, plan, RefreshAt(c, b, plan));
  }

  lemma {:induction false} CollectedCached(t: Table, plan: seq<Utxo>, step: nat -> Result<Utxo>)
    requires Cached(t, plan) && Collect(|plan|, step, 0).Success?
    requires forall k: nat :: k < |plan| ==> SameCoin(step(k), plan[k])
    ensures Cached(t, Collect(|plan|, step, 0).value)
  {
    CollectAll(|plan|, step, 0);
    var selected := Collect(|plan|, step, 0).value;
    forall k | 0 <= k < |plan|
      ensures KeyOf(selected[k]) == KeyOf(plan[k]) && selected[k].valueSats == plan[k].valueSats
    {
      assert step(k) == Success(selected[k]) && SameCoin(step(k), plan[k]);
    }
  }

  /** The backend answers a broadcast with the id of the transaction it was given. */
  ghost predicate AnswersId(c: Crypto, b: Backend) {
    forall t: Tx :: b.broadcast(HexEncode(EncodeTx(t))).Success? ==>
      b.broadcast(HexEncode(EncodeTx(t))) == Success(DisplayTxid(c.sha256d(EncodeTx(t))))
  }

  lemma {:induction false} IdIsClean(c: Crypto, b: Backend, p: SendParams, r: SendResult, t: Tx)
    requires Settled(c, b, p, r, t) && AnswersId(c, b)
    ensures r.txid == DisplayTxid(c.sha256d(EncodeTx(t))) && CleanTxid(r.txid)
  {
    var wire := c.sha256d(EncodeTx(t));
    if ',' in r.txid {
      HexLetters(Reversed(wire), ',');
    }
    if ':' in r.txid {
      HexLetters(Reversed(wire), ':');
    }
  }

  // ---------------------------------------------------------------- what is recorded of a payment

  /** The outpoint is that of a coin spent. */
  ghost predicate IsSpent(r: SendResult, k: Outpoint) {
    exists i :: 0 <= i < |r.spent| && r.spent[i].txid == k.txid && r.spent[i].vout == k.vout
  }

  /** The row of the change: the last output, in value and script, unconfirmed. */
  ghost predicate IsChange(r: SendResult, t: Tx, row: Row) {
    && |t.outputs| == 2 && row.value.sats == r.change == t.outputs[1].value && row.value.height == 0
    && HexDecode(row.value.script) == Some(t.outputs[1].scriptPubKey)
  }

  /** Exactly the spent coins go, and above 546 sats the change comes in; every other row stays. */
  ghost predicate OutputsRecorded(r: SendResult, t: Tx, before: Table, after: Table) {
    var entry := Outpoint(r.txid, 1);
    && (forall k :: k in before && !IsSpent(r, k) && (r.change > 546 ==> k != entry) ==>
          k in after && after[k] == before[k])
    && (forall k :: k in after ==> (k in before && !IsSpent(r, k)) || (r.change > 546 && k == entry))
    && (r.change > 546 ==> entry in after && IsChange(r, t, after[entry]))
  }

  /** The script of a coin spent, or of the change if there is any. */
  ghost predicate ToRegister(r: SendResult, t: Tx, script: string) {
    || (exists i :: 0 <= i < |r.spent| && r.spent[i].scriptHex == script)
    || (r.change > 546 && |t.outputs| == 2 && script == HexEncode(t.outputs[1].scriptPubKey))
  }

  /** These scripts are held afterwards wherever the write succeeds, besides the old ones and nothing else. */
  ghost predicate ScriptsRecorded(r: SendResult, t: Tx, registers: nat -> bool, before: seq<string>,
                                  after: seq<string>) {
    && before <= after
    && (forall i :: 0 <= i < |r.spent| && r.spent[i].scriptHex != "" && registers(i) ==>
          Holds(after, r.spent[i].scriptHex))
    && (r.change > 546 && registers(|r.spent|) ==>
          |t.outputs| == 2 && Holds(after, HexEncode(t.outputs[1].scriptPubKey)))
    && (forall x :: x in after ==> x in before || ToRegister(r, t, x))
  }

  lemma {:induction false} KeysMeanSpent(r: SendResult, k: Outpoint)
    ensures k in Keys(r.spent) <==> IsSpent(r, k)
  {
    if k in Keys(r.spent) {
      var i :| 0 <= i < |r.spent| && KeyOf(r.spent[i]) == k;
      assert r.spent[i].txid == k.txid;
    }
    if i :| 0 <= i < |r.spent| && r.spent[i].txid == k.txid && r.spent[i].vout == k.vout {
      assert KeyOf(r.spent[i]) == k;
    }
  }

  lemma {:induction false} OutputsFollow(p: SendParams, r: SendResult, t: Tx, before: Stored, at: int, after: Stored)
    requires -TWO_63 <= r.change < TWO_63
    requires r.change > DUST_CHANGE_SATS ==> |t.outputs| == 2 && t.outputs[1].value == r.change
    requires RowsAfter(p, r, t, before, at, after)
    ensures OutputsRecorded(r, t, before.table, after.table)
  {
    forall k
      ensures k in Keys(r.spent) <==> IsSpent(r, k)
    {
      KeysMeanSpent(r, k);
    }
    if r.change > DUST_CHANGE_SATS {
      HexRoundTrip(t.outputs[1].scriptPubKey);
    }
  }

  lemma {:induction false} ScriptsFollow(c: Crypto, p: SendParams, r: SendResult, t: Tx, registers: nat -> bool,
                                         before: seq<string>)
    requires -TWO_63 <= r.change < TWO_63
    requires r.change > DUST_CHANGE_SATS ==>
      |t.outputs| == 2 && AddressToScript(c, p.changeAddress) == Success(t.outputs[1].scriptPubKey)
    ensures ScriptsRecorded(r, t, registers, before,
                            AllRegistered(before, SentScripts(c, r.spent, r.change, p.changeAddress), registers, 0))
  {
    var scripts := SentScripts(c, r.spent, r.change, p.changeAddress);
    var after := AllRegistered(before, scripts, registers, 0);
    AllRegisteredGrows(before, scripts, registers, 0);
    AllRegisteredAdds(before, scripts, registers, 0);
    forall i | 0 <= i < |r.spent| && r.spent[i].scriptHex != "" && registers(i)
      ensures Holds(after, r.spent[i].scriptHex)
    {
      assert scripts[i] == r.spent[i].scriptHex;
      AllRegisteredHolds(before, scripts, registers, 0, i);
    }
    if r.change > 546 {
      assert scripts[|r.spent|] == HexEncode(t.outputs[1].scriptPubKey);
      if registers(|r.spent|) {
        AllRegisteredHolds(before, scripts, registers, 0, |r.spent|);
      }
    }
    forall x | x in after
      ensures x in before || ToRegister(r, t, x)
    {
      if x !in before {
        var i :| 0 <= i < |scripts| && scripts[i] == x;
        assert i < |r.spent| ==> r.spent[i].scriptHex == x;
      }
    }
  }

  // ---------------------------------------------------------------- the two steps together

  /** Where a payment is recorded: outputs, history and scripts. */
  datatype Books = Books(cache: SqliteWalletCache, txCache: TxCache, index: KeystoreService)

  /** The three records after a payment, in terms of what was sent. */
  ghost predicate Recorded(r: SendResult, t: Tx, added: seq<WalletTx>, registers: nat -> bool,
                           table: Table, table': Table, rows: Rows, rows': Rows,
                           funded: seq<string>, funded': seq<string>) {
    && OutputsRecorded(r, t, table, table')
    && (CleanRows(rows) && AllClean(added) ==> HistoryRecorded(rows, added, rows'))
    && ScriptsRecorded(r, t, registers, funded, funded')
  }

  method UpdateAfterSend(c: Crypto, b: Backend, books: Books, p: SendParams, r: SendResult, ghost t: Tx,
                         rowsFrom: Tx -> seq<WalletTx>, registers: nat -> bool, at: int)
    returns (ok: Result<()>)
    requires Settled(c, b, p, r, t) && books.txCache.Valid()
    modifies books.cache, books.txCache, books.index
    ensures ok == Success(()) && books.txCache.Valid()
    ensures var cache := books.cache;
            RowsAfter(p, r, t, old(Stored(cache.table, cache.meta)), at, Stored(cache.table, cache.meta))
    ensures Recorded(r, t, rowsFrom(t), registers, old(books.cache.table), books.cache.table,
                     old(books.txCache.rows), books.txCache.rows, old(books.index.funded), books.index.funded)
    ensures books.index.Stored() == old(books.index.Stored()).(funded := books.index.funded)
  {
    var cache := books.cache;
    ghost var before := Stored(cache.table, cache.meta);
    ok := ApplyLocalSendCacheUpdate(c, cache, books.txCache, books.index, r.spent, r.txid, r.rawHex, r.change,
                                    p.changeAddress, rowsFrom, registers, at);
    UpdateSucceeds(c, b, p, r, t, before, at, ok, Stored(cache.table, cache.meta));
    OutputsFollow(p, r, t, before, at, Stored(cache.table, cache.meta));
    ScriptsFollow(c, p, r, t, registers, old(books.index.funded));
    if CleanRows(old(books.txCache.rows)) && AllClean(rowsFrom(t)) {
      MergeRecords(old(books.txCache.rows), rowsFrom(t));
    }
  }

  method SendSettled(c: Crypto, seed: Seed, b: Backend, p: SendParams, now: U32) returns (r: Result<SendResult>,
                                                                                          ghost t: Tx)
    requires Lawful(c) && ValidSeed(c, seed) && PlausibleMoney(c, b, p)
    ensures r.Success? ==> Settled(c, b, p, r.value, t) && Delivers(c, b, p, r.value, t, now)
    ensures r.Success? ==> Quoted(c, b, p).Success? && r.value.spent == Quoted(c, b, p).value.selected
  {
    r := SendPayment(c, seed, b, p, now);
    t := Tx(0, 0, [], [], 0);
    if r.Success? {
      t := SettledBy(c, seed, b, p, now, r.value);
      CompletedPaymentDelivers(c, seed, b, p, Quoted(c, b, p).value, now);
    }
  }

  lemma {:induction false} SettledBy(c: Crypto, seed: Seed, b: Backend, p: SendParams, now: U32, r: SendResult)
    returns (t: Tx)
    requires Lawful(c) && ValidSeed(c, seed) && Quoted(c, b, p).Success?
    requires MachineRange(Quoted(c, b, p).value.selected, PaymentOf(p), Quoted(c, b, p).value.fee)
    requires Finished(c, seed, b, p, Quoted(c, b, p).value, now) == Success(r)
    ensures Settled(c, b, p, r, t) && r.spent == Quoted(c, b, p).value.selected
  {
    var q := Quoted(c, b, p).value;
    EntryAgrees(c, seed, b, p, q, now);
    t := SpendTx(c, seed, q.selected, PaymentOf(p), p.changeAddress, q.fee, now).value;
  }

  /**
   * Sending and then recording the payment. A payment that fails changes nothing. One that is completed delivers
   * what it promises, and outputs, history and scripts follow from the transaction sent. If moreover the coins
   * offered were rows of the cache and the chain agrees with it, and the backend answers with the id of what it
   * was sent, new to the cache, then the next balance is lower by the amount, the fee and any dust left behind.
   */
  method SendAndUpdate(c: Crypto, seed: Seed, b: Backend, p: SendParams, books: Books, rowsFrom: Tx -> seq<WalletTx>,
                       registers: nat -> bool, now: U32, at: int)
    returns (r: Result<SendResult>)
    requires Lawful(c) && ValidSeed(c, seed) && PlausibleMoney(c, b, p) && books.txCache.Valid()
    modifies books.cache, books.txCache, books.index
    ensures r.Failure? ==> unchanged(books.cache, books.txCache, books.index)
    ensures r.Success? ==>
      && DecodeHexTx(r.value.rawHex).Success?
      && var t := DecodeHexTx(r.value.rawHex).value;
      && Delivers(c, b, p, r.value, t, now)
      && Recorded(r.value, t, rowsFrom(t), registers, old(books.cache.table), books.cache.table,
                  old(books.txCache.rows), books.txCache.rows, old(books.index.funded), books.index.funded)
      && books.index.Stored() == old(books.index.Stored()).(funded := books.index.funded)
    ensures var cache := books.cache;
            r.Success? && KnownCoins(c, b, p, old(Stored(cache.table, cache.meta))) && AnswersId(c, b)
            && Outpoint(r.value.txid, 1) !in old(cache.table) ==>
              BalanceDrops(p, r.value, old(Stored(cache.table, cache.meta)), Stored(cache.table, cache.meta))
  {
    var cache := books.cache;
    ghost var t;
    ghost var before := Stored(cache.table, cache.meta);
    r, t := SendSettled(c, seed, b, p, now);
    if r.Success? {
      var _ := UpdateAfterSend(c, b, books, p, r.value, t, rowsFrom, registers, at);
      if KnownCoins(c, b, p, before) && AnswersId(c, b) && Outpoint(r.value.txid, 1) !in before.table {
        SpentIsCached(c, b, p, before);
        IdIsClean(c, b, p, r.value, t);
        BalanceFollows(c, b, p, r.value, t, before, at, Stored(cache.table, cache.meta));
      }
    }
  }

  // ---------------------------------------------------------------- the coins a wallet offers

  /** The confirmed rows of a listing, with their addresses filled in. */
  function Spendable(listed: seq<Utxo>, addressOf: Utxo -> string): seq<Utxo> {
    if listed == [] then []
    else
      var rest := Spendable(listed[1..], addressOf);
      if listed[0].height > 0 then [listed[0].(address := addressOf(listed[0]))] + rest else rest
  }

  lemma {:induction false} SpendableFrom(listed: seq<Utxo>, addressOf: Utxo -> string)
    requires Distinct(listed)
    ensures Distinct(Spendable(listed, addressOf))
    ensures forall u :: u in Spendable(listed, addressOf) ==>
      u.height > 0 && exists v :: v in listed && KeyOf(v) == KeyOf(u) && v == u.(address := v.address)
  {
    if listed != [] {
      var rest := Spendable(listed[1..], addressOf);
      SpendableFrom(listed[1..], addressOf);
      var head := listed[0].(address := addressOf(listed[0]));
      assert head.(address := listed[0].address) == listed[0];
      forall j | 0 <= j < |rest|
        ensures KeyOf(rest[j]) != KeyOf(head)
        ensures exists v :: v in listed && KeyOf(v) == KeyOf(rest[j]) && v == rest[j].(address := v.address)
      {
        assert rest[j] in rest;
        var v :| v in listed[1..] && KeyOf(v) == KeyOf(rest[j]) && v == rest[j].(address := v.address);
        var k :| 0 <= k < |listed[1..]| && listed[1..][k] == v;
        assert listed[k + 1] == v;
      }
    }
  }

  /** Coins offered from a listing of the cache are rows that the next balance keeps. */
  lemma {:induction false} SpendableIsCached(s: Stored, listed: seq<Utxo>, addressOf: Utxo -> string)
    requires Listing(s.table, listed)
    ensures Cached(Kept(s.table, s.meta), Spendable(listed, addressOf))
  {
    SpendableFrom(listed, addressOf);
    var coins := Spendable(listed, addressOf);
    forall i | 0 <= i < |coins|
      ensures KeyOf(coins[i]) in Kept(s.table, s.meta)
      ensures Kept(s.table, s.meta)[KeyOf(coins[i])].value.sats == coins[i].valueSats
    {
      assert coins[i] in coins;
      var v :| v in listed && KeyOf(v) == KeyOf(coins[i]) && v == coins[i].(address := v.address);
      var k :| 0 <= k < |listed| && listed[k] == v;
      assert KeyOf(listed[k]) in Keys(listed);
    }
  }

  // ---------------------------------------------------------------- after a listing

  lemma {:induction false} WorthOfReplaced(t: Table, utxos: seq<Utxo>, now: int)
    requires Distinct(utxos)
    ensures Worth(Replaced(t, utxos, now)) == Total(utxos)
  {
    var r := Replaced(t, utxos, now);
    assert Cached(r, utxos) by {
      forall i | 0 <= i < |utxos|
        ensures KeyOf(utxos[i]) in r && r[KeyOf(utxos[i])].value.sats == utxos[i].valueSats
      {
        TimesKept(t, utxos, now, i);
      }
    }
    WorthWithoutSpent(r, utxos);
    assert Without(r, Keys(utxos)) == map[];
  }

  lemma {:induction false} ListedIsTrusted(t: Table, meta: Meta, utxos: seq<Utxo>, now: int)
    requires Distinct(utxos) && forall u :: u in utxos ==> CleanTxid(u.txid)
    ensures Kept(Replaced(t, utxos, now), meta[LAST_ELECTRUM_UTXO_META := PrintKeys(KeyList(utxos))])
         == Replaced(t, utxos, now)
  {
    var r := Replaced(t, utxos, now);
    var kept := Kept(r, meta[LAST_ELECTRUM_UTXO_META := PrintKeys(KeyList(utxos))]);
    forall k
      ensures k in r <==> k in kept
      ensures k in r ==> kept[k] == r[k]
    {
      KeptAfterListing(r, meta, utxos, k);
      ReplacedRow(t, utxos, now, k);
      if k in r {
        var i :| 0 <= i < |utxos| && KeyOf(utxos[i]) == k;
        assert utxos[i].txid == k.txid && utxos[i].vout == k.vout;
      }
    }
  }

  /** After a fresh listing of distinct outpoints the balance is the listing's total, and evicts nothing. */
  lemma {:induction false} BalanceAfterListing(t: Table, meta: Meta, utxos: seq<Utxo>, now: int)
    requires Distinct(utxos) && forall u :: u in utxos ==> CleanTxid(u.txid)
    ensures var after := meta[LAST_ELECTRUM_UTXO_META := PrintKeys(KeyList(utxos))];
            var kept := Kept(Replaced(t, utxos, now), after);
            kept == Replaced(t, utxos, now) && Worth(kept) == Total(utxos)
  {
    ListedIsTrusted(t, meta, utxos, now);
    WorthOfReplaced(t, utxos, now);
  }

  lemma {:induction false} SpendableTotal(utxos: seq<Utxo>, addressOf: Utxo -> string)
    ensures Total(Spendable(utxos, addressOf)) == SumBy((u: Utxo) => if u.height >= 1 then u.valueSats else 0, utxos)
  {
    if utxos != [] {
      SpendableTotal(utxos[1..], addressOf);
    }
  }

  lemma {:induction false} OnlyConfirmedLeft(t: Table, utxos: seq<Utxo>, now: int, addressOf: Utxo -> string,
                                             k: Outpoint)
    requires Distinct(utxos)
    ensures var r := Confirmed(Replaced(t, utxos, now)); k in r ==> k in Keys(Spendable(utxos, addressOf))
  {
    var r := Confirmed(Replaced(t, utxos, now));
    if k in r {
      ReplacedRow(t, utxos, now, k);
      var i :| 0 <= i < |utxos| && KeyOf(utxos[i]) == k;
      TimesKept(t, utxos, now, i);
      SpendableHas(utxos, addressOf, i);
    }
  }

  lemma {:induction false} SpendableHas(utxos: seq<Utxo>, addressOf: Utxo -> string, i: nat)
    requires i < |utxos| && utxos[i].height >= 1
    ensures KeyOf(utxos[i]) in Keys(Spendable(utxos, addressOf))
  {
    var rest := Spendable(utxos[1..], addressOf);
    if i > 0 {
      SpendableHas(utxos[1..], addressOf, i - 1);
    }
    if utxos[0].height > 0 {
      KeysPrepend(utxos[0].(address := addressOf(utxos[0])), rest);
    }
  }

  /** The confirmed part of a balance is the worth of the confirmed coins listed, the other part that of the others. */
  lemma {:induction false} PartsAfterListing(t: Table, utxos: seq<Utxo>, now: int)
    requires Distinct(utxos)
    ensures var r := Replaced(t, utxos, now);
            && Worth(Confirmed(r)) == SumBy((u: Utxo) => if u.height >= 1 then u.valueSats else 0, utxos)
            && Worth(Unconfirmed(r)) == SumBy((u: Utxo) => if u.height >= 1 then 0 else u.valueSats, utxos)
  {
    var r := Replaced(t, utxos, now);
    var keep := (u: Utxo) => "";
    var coins := Spendable(utxos, keep);
    SpendableFrom(utxos, keep);
    SpendableTotal(utxos, keep);
    forall i | 0 <= i < |coins|
      ensures KeyOf(coins[i]) in Confirmed(r) && Confirmed(r)[KeyOf(coins[i])].value.sats == coins[i].valueSats
    {
      assert coins[i] in coins;
      var v :| v in utxos && KeyOf(v) == KeyOf(coins[i]) && v == coins[i].(address := v.address);
      var k :| 0 <= k < |utxos| && utxos[k] == v;
      TimesKept(t, utxos, now, k);
    }
    WorthWithoutSpent(Confirmed(r), coins);
    forall k | k in Confirmed(r)
      ensures k in Keys(coins)
    {
      OnlyConfirmedLeft(t, utxos, now, keep, k);
    }
    assert Without(Confirmed(r), Keys(coins)) == map[];
    WorthOfReplaced(t, utxos, now);
    BalanceFacts(r, map[]);
    HeightSplits(utxos);
  }

  lemma {:induction false} HeightSplits(utxos: seq<Utxo>)
    ensures SumBy((u: Utxo) => if u.height >= 1 then u.valueSats else 0, utxos)
            + SumBy((u: Utxo) => if u.height >= 1 then 0 else u.valueSats, utxos) == Total(utxos)
  {
    if utxos != [] {
      HeightSplits(utxos[1..]);
    }
  }
}
