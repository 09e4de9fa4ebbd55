/** Merging pending rows into a wallet's transaction history. */
module History {
  import opened Bytes
  import opened KeySet
  import opened Outcome

  /** A history row; amounts are in sats. */
  datatype WalletTx = WalletTx(
    txid: string, height: I32, feeSats: Option<int>, category: string, amount: int, address: Option<string>,
    confirmations: I32, time: Option<U64>, blockhash: Option<string>, blockheight: Option<U32>)

  function RowKey(tx: WalletTx): string {
    tx.txid + [':'] + tx.category + [':'] + match tx.address case None => "" case Some(a) => a
  }

  predicate TxHistoryConfirmed(tx: WalletTx) {
    tx.height > 0 || tx.blockheight.Some?
  }

  function TimeOf(tx: WalletTx): int {
    match tx.time case None => 0 case Some(t) => t
  }

  /** Latest first, then highest first. */
  predicate NotAfter(a: WalletTx, b: WalletTx) {
    TimeOf(a) > TimeOf(b) || (TimeOf(a) == TimeOf(b) && a.height >= b.height)
  }

  type Rows = map<string, WalletTx>

  // ---------------------------------------------------------------- what the loops do

  function BaseRows(base: seq<WalletTx>, n: nat): Rows
    requires n <= |base|
  {
    if n == 0 then map[] else BaseRows(base, n - 1)[RowKey(base[n - 1]) := base[n - 1]]
  }

  predicate Keeps(m: Rows, tx: WalletTx) {
    RowKey(tx) in m && TxHistoryConfirmed(m[RowKey(tx)]) && !TxHistoryConfirmed(tx)
  }

  function Merged(m: Rows, pending: seq<WalletTx>, n: nat): Rows
    requires n <= |pending|
  {
    if n == 0 then m
    else
      var before, tx := Merged(m, pending, n - 1), pending[n - 1];
      if Keeps(before, tx) then before else before[RowKey(tx) := tx]
  }

  function MergedRows(base: seq<WalletTx>, pending: seq<WalletTx>): Rows {
    Merged(BaseRows(base, |base|), pending, |pending|)
  }

  predicate Sorted(rows: seq<WalletTx>) {
    forall i, j :: 0 <= i < j < |rows| ==> NotAfter(rows[i], rows[j])
  }

  /** No two rows have the same key, as in a stored history. */
  predicate DistinctKeys(rows: seq<WalletTx>) {
    forall i, j :: 0 <= i < j < |rows| ==> RowKey(rows[i]) != RowKey(rows[j])
  }

  /** The rows of a map, each once. */
  ghost predicate RowsOf(m: Rows, rows: seq<WalletTx>) {
    && DistinctKeys(rows)
    && forall tx :: tx in rows <==> RowKey(tx) in m && m[RowKey(tx)] == tx
  }

  /** Sorted, where rows of one time and height may be in any order. */
  ghost predicate SortedRowsOf(m: Rows, rows: seq<WalletTx>) {
    Sorted(rows) && RowsOf(m, rows)
  }

  ghost predicate WellKeyed(m: Rows) {
    forall k :: k in m ==> RowKey(m[k]) == k
  }

  // ---------------------------------------------------------------- the code

  method MergeTxHistory(base: seq<WalletTx>, pending: seq<WalletTx>) returns (rows: seq<WalletTx>)
    ensures SortedRowsOf(MergedRows(base, pending), rows)
  {
    var m: Rows := map[];
    for i := 0 to |base|
      invariant m == BaseRows(base, i)
    {
      m := m[RowKey(base[i]) := base[i]];
    }
    for i := 0 to |pending|
      invariant m == Merged(BaseRows(base, |base|), pending, i)
    {
      var tx := pending[i];
      var key := RowKey(tx);
      if key in m {
        var existing := m[key];
        if TxHistoryConfirmed(existing) && !TxHistoryConfirmed(tx) {
          continue;
        }
      }
      m := m[key := tx];
    }
    MergedWellKeyed(base, pending);
    rows := SortRows(m);
  }

  method SortRows(m: Rows) returns (rows: seq<WalletTx>)
    requires WellKeyed(m)
    ensures SortedRowsOf(m, rows)
  {
    rows := [];
    var rest := m.Keys;
    while rest != {}
      invariant rest <= m.Keys && Sorted(rows) && DistinctKeys(rows)
      invariant forall tx :: tx in rows <==> RowKey(tx) in m && RowKey(tx) !in rest && m[RowKey(tx)] == tx
    {
      var k :| k in rest;
      assert forall i :: 0 <= i < |rows| ==> rows[i] in rows;
      InsertFacts(rows, m[k]);
      rows := Insert(rows, m[k]);
      rest := rest - {k};
    }
  }

  /** The stored history, keyed by row key. */
  class TxCache {
    var rows: Rows

    ghost predicate Valid()
      reads this
    {
      WellKeyed(rows)
    }

    constructor ()
      ensures Valid() && rows == map[]
    {
      rows := map[];
    }

    /** Every row once; rows of one time come in any order. */
    method LoadHistory() returns (txs: seq<WalletTx>)
      requires Valid()
      ensures RowsOf(rows, txs)
    {
      txs := SortRows(rows);
    }

    method ReplaceHistory(txs: seq<WalletTx>)
      modifies this
      ensures rows == BaseRows(txs, |txs|)
      ensures Valid()
    {
      rows := map[];
      for i := 0 to |txs|
        invariant rows == BaseRows(txs, i)
      {
        rows := rows[RowKey(txs[i]) := txs[i]];
      }
      BaseWellKeyed(txs, |txs|);
    }

    /** Loading, merging and storing again is merging in place. */
    method AppendLocalTxHistoryRows(added: seq<WalletTx>)
      requires Valid()
      modifies this
      ensures rows == Merged(old(rows), added, |added|)
      ensures Valid()
    {
      if added == [] {
        return;
      }
      var existing := LoadHistory();
      ListedRows(rows, existing);
      var merged := MergeTxHistory(existing, added);
      MergedWellKeyed(existing, added);
      ListedRows(MergedRows(existing, added), merged);
      ReplaceHistory(merged);
    }
  }

  function Insert(rows: seq<WalletTx>, tx: WalletTx): seq<WalletTx> {
    if rows == [] || NotAfter(tx, rows[0]) then [tx] + rows else [rows[0]] + Insert(rows[1..], tx)
  }

  lemma {:induction false} InsertFacts(rows: seq<WalletTx>, tx: WalletTx)
    requires Sorted(rows) && DistinctKeys(rows)
    requires forall i :: 0 <= i < |rows| ==> RowKey(rows[i]) != RowKey(tx)
    ensures var r := Insert(rows, tx);
            && Sorted(r) && DistinctKeys(r)
            && forall x :: x in r <==> x in rows || x == tx
  {
    if rows != [] && !NotAfter(tx, rows[0]) {
      var rest := Insert(rows[1..], tx);
      InsertFacts(rows[1..], tx);
      assert forall i :: 0 <= i < |rest| ==> rest[i] in rest;
      forall x | x in rest
        ensures NotAfter(rows[0], x) && RowKey(rows[0]) != RowKey(x)
      {
        if x != tx {
          var i :| 0 <= i < |rows[1..]| && rows[1..][i] == x;
          assert rows[i + 1] == x;
        }
      }
      assert rows == [rows[0]] + rows[1..];
    }
  }

  lemma {:induction false} MergedWellKeyed(base: seq<WalletTx>, pending: seq<WalletTx>)
    ensures WellKeyed(MergedRows(base, pending))
  {
    BaseWellKeyed(base, |base|);
    PendingWellKeyed(BaseRows(base, |base|), pending, |pending|);
  }

  lemma {:induction false} BaseWellKeyed(base: seq<WalletTx>, n: nat)
    requires n <= |base|
    ensures WellKeyed(BaseRows(base, n))
  {
    if n > 0 {
      BaseWellKeyed(base, n - 1);
    }
  }

  lemma {:induction false} PendingWellKeyed(m: Rows, pending: seq<WalletTx>, n: nat)
    requires n <= |pending| && WellKeyed(m)
    ensures WellKeyed(Merged(m, pending, n))
  {
    if n > 0 {
      PendingWellKeyed(m, pending, n - 1);
    }
  }

  // ---------------------------------------------------------------- closed form

  /** The rows for one key, in order. */
  function RowsFor(txs: seq<WalletTx>, k: string): seq<WalletTx> {
    if txs == [] then []
    else
      var front, last := txs[..|txs| - 1], txs[|txs| - 1];
      if RowKey(last) == k then RowsFor(front, k) + [last] else RowsFor(front, k)
  }

  predicate AnyConfirmed(txs: seq<WalletTx>) {
    exists i :: 0 <= i < |txs| && TxHistoryConfirmed(txs[i])
  }

  /** The last confirmed row if there is one, else the last row. */
  function Pick(txs: seq<WalletTx>): WalletTx
    requires txs != []
  {
    var last := txs[|txs| - 1];
    if TxHistoryConfirmed(last) || !AnyConfirmed(txs) then last else Pick(txs[..|txs| - 1])
  }

  /** What Pick means: it is one of the rows, and nothing behind it should have been preferred. */
  lemma {:induction false} PickMeans(txs: seq<WalletTx>) returns (at: nat)
    requires txs != []
    ensures at < |txs| && Pick(txs) == txs[at]
    ensures AnyConfirmed(txs) ==>
      TxHistoryConfirmed(txs[at]) && forall j :: at < j < |txs| ==> !TxHistoryConfirmed(txs[j])
    ensures !AnyConfirmed(txs) ==> at == |txs| - 1
  {
    if TxHistoryConfirmed(txs[|txs| - 1]) || !AnyConfirmed(txs) {
      at := |txs| - 1;
    } else {
      var front := txs[..|txs| - 1];
      var i :| 0 <= i < |txs| && TxHistoryConfirmed(txs[i]);
      assert TxHistoryConfirmed(front[i]);
      at := PickMeans(front);
    }
  }

  lemma {:induction false} ConfirmedAppend(txs: seq<WalletTx>, tx: WalletTx)
    ensures AnyConfirmed(txs + [tx]) <==> AnyConfirmed(txs) || TxHistoryConfirmed(tx)
  {
    var all := txs + [tx];
    assert all[|txs|] == tx;
    if i :| 0 <= i < |txs| && TxHistoryConfirmed(txs[i]) {
      assert TxHistoryConfirmed(all[i]);
    }
  }

  /** One more row behind the others: it is taken unless it is pending and a confirmed one is known. */
  lemma {:induction false} PickAppend(txs: seq<WalletTx>, tx: WalletTx)
    requires txs != []
    ensures Pick(txs + [tx]) == if TxHistoryConfirmed(Pick(txs)) && !TxHistoryConfirmed(tx) then Pick(txs) else tx
    ensures TxHistoryConfirmed(Pick(txs)) <==> AnyConfirmed(txs)
  {
    assert (txs + [tx])[..|txs|] == txs;
    ConfirmedAppend(txs, tx);
    var at := PickMeans(txs);
  }

  lemma {:induction false} BaseRow(base: seq<WalletTx>, k: string, n: nat)
    requires n <= |base|
    ensures var rows := RowsFor(base[..n], k);
            && (k in BaseRows(base, n) <==> rows != [])
            && (rows != [] ==> BaseRows(base, n)[k] == rows[|rows| - 1])
  {
    if n > 0 {
      BaseRow(base, k, n - 1);
      assert base[..n][..n - 1] == base[..n - 1];
    }
  }

  /** The rows that compete for a key: what a map holds, then the pending ones. */
  function Candidates(m: Rows, pending: seq<WalletTx>, k: string): seq<WalletTx> {
    (if k in m then [m[k]] else []) + RowsFor(pending, k)
  }

  lemma {:induction false} MergedRow(m: Rows, pending: seq<WalletTx>, k: string, n: nat)
    requires n <= |pending|
    ensures var rows := Candidates(m, pending[..n], k);
            && (k in Merged(m, pending, n) <==> rows != [])
            && (rows != [] ==> Merged(m, pending, n)[k] == Pick(rows))
  {
    if n > 0 {
      MergedRow(m, pending, k, n - 1);
      assert pending[..n][..n - 1] == pending[..n - 1];
      var front, tx := Candidates(m, pending[..n - 1], k), pending[n - 1];
      if RowKey(tx) == k {
        assert Candidates(m, pending[..n], k) == front + [tx];
        if front != [] {
          PickAppend(front, tx);
        }
      }
    } else {
      assert RowsFor(pending[..0], k) == [];
    }
  }

  /** The rows that compete for a key in a merge: the last one of the base, then the pending ones. */
  function Competing(base: seq<WalletTx>, pending: seq<WalletTx>, k: string): seq<WalletTx> {
    var stored := RowsFor(base, k);
    (if stored == [] then [] else [stored[|stored| - 1]]) + RowsFor(pending, k)
  }

  /** Keys are the union of both inputs; a key's row is the last confirmed of the competing ones, else the last. */
  lemma {:induction false} MergeClosedForm(base: seq<WalletTx>, pending: seq<WalletTx>, k: string)
    ensures var m := MergedRows(base, pending);
            && (k in m <==> RowsFor(base, k) != [] || RowsFor(pending, k) != [])
            && (k in m ==> m[k] == Pick(Competing(base, pending, k)))
  {
    assert base[..|base|] == base && pending[..|pending|] == pending;
    BaseRow(base, k, |base|);
    MergedRow(BaseRows(base, |base|), pending, k, |pending|);
  }

  // ---------------------------------------------------------------- all rows compete

  lemma {:induction false} AnyConfirmedConcat(a: seq<WalletTx>, b: seq<WalletTx>)
    ensures AnyConfirmed(a + b) <==> AnyConfirmed(a) || AnyConfirmed(b)
  {
    if i :| 0 <= i < |a| && TxHistoryConfirmed(a[i]) {
      assert TxHistoryConfirmed((a + b)[i]);
    }
    if i :| 0 <= i < |b| && TxHistoryConfirmed(b[i]) {
      assert TxHistoryConfirmed((a + b)[|a| + i]);
    }
  }

  /** Rows in front matter only if nothing behind them is confirmed. */
  lemma {:induction false} PickConcat(a: seq<WalletTx>, b: seq<WalletTx>)
    requires a != []
    ensures Pick(a + b) == if AnyConfirmed(b) || (b != [] && !AnyConfirmed(a)) then Pick(b) else Pick(a)
  {
    if b == [] {
      assert a + b == a;
    } else {
      var front, tx := b[..|b| - 1], b[|b| - 1];
      assert b == front + [tx] && a + b == (a + front) + [tx];
      PickConcat(a, front);
      PickAppend(a + front, tx);
      AnyConfirmedConcat(a, front);
      ConfirmedAppend(front, tx);
      if front != [] {
        PickAppend(front, tx);
      }
    }
  }

  /**
   * The merge picks among all rows of both inputs, except for a key whose confirmed base row is followed by a
   * pending one in the base itself and whose pending rows are all unconfirmed.
   */
  lemma {:induction false} MergePicksAmongAllIff(base: seq<WalletTx>, pending: seq<WalletTx>, k: string)
    requires RowsFor(base, k) != []
    ensures k in MergedRows(base, pending)
    ensures var stored, added := RowsFor(base, k), RowsFor(pending, k);
            MergedRows(base, pending)[k] == Pick(stored + added)
            <==> (TxHistoryConfirmed(stored[|stored| - 1]) || AnyConfirmed(added) || !AnyConfirmed(stored))
  {
    var stored, added := RowsFor(base, k), RowsFor(pending, k);
    var last := [stored[|stored| - 1]];
    MergeClosedForm(base, pending, k);
    PickConcat(stored, added);
    PickConcat(last, added);
    AnyConfirmedConcat(stored, added);
    AnyConfirmedConcat(last, added);
    PickAppend(stored + added, last[0]);
    PickAppend(last + added, last[0]);
    assert TxHistoryConfirmed(last[0]) ==> TxHistoryConfirmed(stored[|stored| - 1]);
  }

  lemma {:induction false} OneRowEach(base: seq<WalletTx>, k: string)
    requires DistinctKeys(base)
    ensures |RowsFor(base, k)| <= 1
    ensures RowsFor(base, k) != [] ==> exists i :: 0 <= i < |base| && RowKey(base[i]) == k
  {
    if base != [] {
      var front := base[..|base| - 1];
      OneRowEach(front, k);
      if RowsFor(front, k) != [] {
        var i :| 0 <= i < |front| && RowKey(front[i]) == k;
        assert base[i] == front[i] && RowKey(base[i]) != RowKey(base[|base| - 1]);
      }
    }
  }

  /** A base without repeated keys loses nothing: each key's row is the preferred one of all rows of both inputs. */
  lemma {:induction false} DistinctBaseLosesNothing(base: seq<WalletTx>, pending: seq<WalletTx>, k: string)
    requires DistinctKeys(base) && k in MergedRows(base, pending)
    ensures RowsFor(base, k) + RowsFor(pending, k) != []
    ensures MergedRows(base, pending)[k] == Pick(RowsFor(base, k) + RowsFor(pending, k))
  {
    OneRowEach(base, k);
    MergeClosedForm(base, pending, k);
    assert RowsFor(base, k) != [] ==> RowsFor(base, k) == [RowsFor(base, k)[0]];
  }

  function SampleRow(height: I32): WalletTx {
    WalletTx("a", height, None, "receive", 1, None, 0, Some(1), None, None)
  }

  /** With a repeated key the confirmed row is lost to a pending one behind it in the base. */
  lemma {:induction false} ConfirmedRowLost()
    ensures var base := [SampleRow(100), SampleRow(0)];
            var k := RowKey(SampleRow(100));
            var m := MergedRows(base, []);
            && k in m && m[k] == SampleRow(0)
            && AnyConfirmed(RowsFor(base, k)) && !TxHistoryConfirmed(m[k])
  {
    var base := [SampleRow(100), SampleRow(0)];
    var k := RowKey(SampleRow(100));
    assert base[..1] == [SampleRow(100)];
    assert RowsFor(base[..1], k) == [SampleRow(100)];
    assert RowsFor(base, k)[0] == SampleRow(100);
    assert BaseRows(base, 2)[k] == base[1];
  }

  // ---------------------------------------------------------------- idempotence

  lemma {:induction false} ListedRows(m: Rows, rows: seq<WalletTx>)
    requires RowsOf(m, rows) && WellKeyed(m)
    ensures BaseRows(rows, |rows|) == m
  {
    BaseRowsOf(rows, |rows|);
    forall x
      ensures x in BaseRows(rows, |rows|) <==> x in m
      ensures x in m ==> BaseRows(rows, |rows|)[x] == m[x]
    {
      if x in m {
        assert m[x] in rows;
      }
    }
  }

  lemma {:induction false} BaseRowsOf(rows: seq<WalletTx>, n: nat)
    requires n <= |rows| && DistinctKeys(rows)
    ensures forall x :: x in BaseRows(rows, n) ==> BaseRows(rows, n)[x] in rows && RowKey(BaseRows(rows, n)[x]) == x
    ensures forall i :: 0 <= i < n ==>
      RowKey(rows[i]) in BaseRows(rows, n) && BaseRows(rows, n)[RowKey(rows[i])] == rows[i]
  {
    if n > 0 {
      BaseRowsOf(rows, n - 1);
    }
  }

  lemma {:induction false} MergedAgainAt(base: seq<WalletTx>, pending: seq<WalletTx>, k: string)
    ensures var m := MergedRows(base, pending);
            var again := Merged(m, pending, |pending|);
            (k in again <==> k in m) && (k in m ==> again[k] == m[k])
  {
    var m := MergedRows(base, pending);
    assert pending[..|pending|] == pending;
    MergedRow(m, pending, k, |pending|);
    MergeClosedForm(base, pending, k);
    if k in m {
      PickAgain(Competing(base, pending, k), RowsFor(pending, k));
    }
  }

  /** Merging the same pending rows into the result again changes no key's row. */
  lemma {:induction false} MergeIsIdempotent(base: seq<WalletTx>, pending: seq<WalletTx>, rows: seq<WalletTx>)
    requires SortedRowsOf(MergedRows(base, pending), rows)
    ensures MergedRows(rows, pending) == MergedRows(base, pending)
  {
    MergedWellKeyed(base, pending);
    ListedRows(MergedRows(base, pending), rows);
    forall k
      ensures k in MergedRows(rows, pending) <==> k in MergedRows(base, pending)
      ensures k in MergedRows(base, pending) ==> MergedRows(rows, pending)[k] == MergedRows(base, pending)[k]
    {
      MergedAgainAt(base, pending, k);
    }
  }

  lemma {:induction false} MergedSplit(m: Rows, a: seq<WalletTx>, b: seq<WalletTx>, n: nat)
    requires n <= |b|
    ensures Merged(m, a + b, |a| + n) == Merged(Merged(m, a, |a|), b, n)
  {
    if n > 0 {
      MergedSplit(m, a, b, n - 1);
    } else {
      MergedPrefix(m, a, b, |a|);
    }
  }

  lemma {:induction false} MergedPrefix(m: Rows, a: seq<WalletTx>, b: seq<WalletTx>, n: nat)
    requires n <= |a|
    ensures Merged(m, a + b, n) == Merged(m, a, n)
  {
    if n > 0 {
      MergedPrefix(m, a, b, n - 1);
    }
  }

  /** However pending rows arrive over time, merging them in turn is merging them at once. */
  lemma {:induction false} MergesCompose(base: seq<WalletTx>, first: seq<WalletTx>, second: seq<WalletTx>,
                                         rows: seq<WalletTx>)
    requires SortedRowsOf(MergedRows(base, first), rows)
    ensures MergedRows(rows, second) == MergedRows(base, first + second)
  {
    MergedWellKeyed(base, first);
    ListedRows(MergedRows(base, first), rows);
    MergedSplit(BaseRows(base, |base|), first, second, |second|);
  }

  lemma {:induction false} PickAgain(all: seq<WalletTx>, tail: seq<WalletTx>)
    requires all != [] && |tail| <= |all| && all[|all| - |tail|..] == tail
    ensures Pick([Pick(all)] + tail) == Pick(all)
  {
    var front := all[..|all| - |tail|];
    assert all == front + tail;
    var x := [Pick(all)];
    PickConcat(x, tail);
    PickAppend(all, x[0]);
    AnyConfirmedConcat(front, tail);
    assert AnyConfirmed(x) <==> TxHistoryConfirmed(x[0]);
    if front == [] {
      assert tail == all;
    } else {
      PickConcat(front, tail);
    }
  }

  // ---------------------------------------------------------------- which rows are the same

  /** No address counts as an empty one. */
  function AddressText(tx: WalletTx): string {
    match tx.address case None => "" case Some(a) => a
  }

  /** Two rows tell of the same movement: transaction, category and address agree. */
  predicate SameMovement(a: WalletTx, b: WalletTx) {
    a.txid == b.txid && a.category == b.category && AddressText(a) == AddressText(b)
  }

  /** Id and category can be told apart in the key: neither holds a colon. */
  predicate CleanRow(tx: WalletTx) {
    ':' !in tx.txid && ':' !in tx.category
  }

  ghost predicate AllClean(txs: seq<WalletTx>) {
    forall tx :: tx in txs ==> CleanRow(tx)
  }

  /** The key tells rows apart exactly as these three do. */
  lemma {:induction false} RowKeyIff(a: WalletTx, b: WalletTx)
    requires CleanRow(a) && CleanRow(b)
    ensures RowKey(a) == RowKey(b) <==> SameMovement(a, b)
  {
    RowKeySplits(a);
    RowKeySplits(b);
  }

  lemma {:induction false} RowKeySplits(tx: WalletTx)
    requires CleanRow(tx)
    ensures SplitOnce(RowKey(tx), ':') == Some((tx.txid, tx.category + [':'] + AddressText(tx)))
    ensures SplitOnce(tx.category + [':'] + AddressText(tx), ':') == Some((tx.category, AddressText(tx)))
  {
    assert RowKey(tx) == tx.txid + [':'] + (tx.category + [':'] + AddressText(tx));
    SplitOnceAt(tx.txid, tx.category + [':'] + AddressText(tx), ':');
    SplitOnceAt(tx.category, AddressText(tx), ':');
  }

  ghost predicate Tells(txs: seq<WalletTx>, tx: WalletTx) {
    exists x :: x in txs && SameMovement(x, tx)
  }

  lemma {:induction false} RowsForIn(txs: seq<WalletTx>, k: string)
    ensures forall x :: x in RowsFor(txs, k) <==> x in txs && RowKey(x) == k
  {
    if txs != [] {
      var front := txs[..|txs| - 1];
      RowsForIn(front, k);
      assert txs == front + [txs[|txs| - 1]];
    }
  }

  lemma {:induction false} PickIsOne(txs: seq<WalletTx>)
    requires txs != []
    ensures Pick(txs) in txs
  {
    var at := PickMeans(txs);
  }

  /** A merged row is a row of one of the inputs. */
  lemma {:induction false} MergedRowIsGiven(base: seq<WalletTx>, pending: seq<WalletTx>, k: string)
    requires k in MergedRows(base, pending)
    ensures MergedRows(base, pending)[k] in base + pending && RowKey(MergedRows(base, pending)[k]) == k
  {
    MergeClosedForm(base, pending, k);
    PickIsOne(Competing(base, pending, k));
    RowsForIn(base, k);
    RowsForIn(pending, k);
    MergedWellKeyed(base, pending);
  }

  /**
   * The merge loses no movement and invents no row: every row given has a row of its transaction, category and
   * address in the result, every row of the result was given, and no two of them tell of the same movement.
   */
  lemma {:induction false} MergeKeepsMovements(base: seq<WalletTx>, pending: seq<WalletTx>, rows: seq<WalletTx>)
    requires SortedRowsOf(MergedRows(base, pending), rows) && AllClean(base + pending)
    ensures forall tx :: tx in base + pending ==> Tells(rows, tx)
    ensures forall tx :: tx in rows ==> tx in base + pending
    ensures forall i, j :: 0 <= i < j < |rows| ==> !SameMovement(rows[i], rows[j])
  {
    var m := MergedRows(base, pending);
    forall tx | tx in base + pending
      ensures Tells(rows, tx)
    {
      var k := RowKey(tx);
      MergeClosedForm(base, pending, k);
      RowsForIn(base, k);
      RowsForIn(pending, k);
      MergedRowIsGiven(base, pending, k);
      RowKeyIff(m[k], tx);
      assert m[k] in rows;
    }
    forall tx | tx in rows
      ensures tx in base + pending
    {
      MergedRowIsGiven(base, pending, RowKey(tx));
    }
    forall i, j | 0 <= i < j < |rows|
      ensures !SameMovement(rows[i], rows[j])
    {
      assert rows[i] in rows && rows[j] in rows;
      MergedRowIsGiven(base, pending, RowKey(rows[i]));
      MergedRowIsGiven(base, pending, RowKey(rows[j]));
      RowKeyIff(rows[i], rows[j]);
    }
  }

  /** A movement that is confirmed in the pending rows, or in a base that repeats none, is confirmed in the result. */
  lemma {:induction false} ConfirmedStays(base: seq<WalletTx>, pending: seq<WalletTx>, rows: seq<WalletTx>,
                                          tx: WalletTx)
    requires SortedRowsOf(MergedRows(base, pending), rows) && AllClean(base + pending)
    requires tx in pending || (tx in base && DistinctKeys(base))
    requires tx.height > 0 || tx.blockheight.Some?
    ensures exists x :: x in rows && SameMovement(x, tx) && (x.height > 0 || x.blockheight.Some?)
  {
    var k, m := RowKey(tx), MergedRows(base, pending);
    MergeClosedForm(base, pending, k);
    RowsForIn(base, k);
    RowsForIn(pending, k);
    if DistinctKeys(base) {
      OneRowEach(base, k);
    }
    var all := Competing(base, pending, k);
    assert tx in all;
    var i :| 0 <= i < |all| && all[i] == tx;
    var at := PickMeans(all);
    assert TxHistoryConfirmed(all[i]);
    MergedRowIsGiven(base, pending, k);
    RowKeyIff(m[k], tx);
    assert m[k] in rows;
  }

  /** Latest first; rows without a time come after all that have one; of the same time, the higher first. */
  lemma {:induction false} LatestFirst(m: Rows, rows: seq<WalletTx>, i: nat, j: nat)
    requires SortedRowsOf(m, rows) && i < j < |rows|
    ensures rows[j].time.Some? && rows[j].time.value > 0 ==>
      rows[i].time.Some? && rows[i].time.value >= rows[j].time.value
    ensures rows[i].time == rows[j].time ==> rows[i].height >= rows[j].height
  {
  }

  // ---------------------------------------------------------------- rows stored

  ghost predicate CleanRows(m: Rows) {
    WellKeyed(m) && forall k :: k in m ==> CleanRow(m[k])
  }

  /** Some stored row tells of this movement. */
  ghost predicate TellsOf(m: Rows, tx: WalletTx) {
    exists k :: k in m && SameMovement(m[k], tx)
  }

  /** No other of the rows tells of the movement of the i-th. */
  ghost predicate Single(txs: seq<WalletTx>, i: nat)
    requires i < |txs|
  {
    forall j :: 0 <= j < |txs| && j != i ==> !SameMovement(txs[j], txs[i])
  }

  /**
   * Merging rows into those stored: nothing told before or added is lost, a row whose movement is new and single
   * is stored itself, and a stored row of which nothing new is told stays as it is.
   */
  ghost predicate HistoryRecorded(before: Rows, added: seq<WalletTx>, after: Rows) {
    && (forall tx :: tx in added ==> TellsOf(after, tx))
    && (forall i :: 0 <= i < |added| && !TellsOf(before, added[i]) && Single(added, i) ==> added[i] in after.Values)
    && (forall k :: k in before ==> k in after)
    && (forall k :: k in before && !Tells(added, before[k]) ==> after[k] == before[k])
    && (forall k :: k in after ==> after[k] in added || (k in before && after[k] == before[k]))
  }

  lemma {:induction false} NoRowsFor(txs: seq<WalletTx>, k: string)
    requires forall tx :: tx in txs ==> RowKey(tx) != k
    ensures RowsFor(txs, k) == []
  {
    if txs != [] {
      assert txs[|txs| - 1] in txs;
      NoRowsFor(txs[..|txs| - 1], k);
    }
  }

  lemma {:induction false} OneRowFor(txs: seq<WalletTx>, i: nat)
    requires i < |txs| && forall j :: 0 <= j < |txs| && j != i ==> RowKey(txs[j]) != RowKey(txs[i])
    ensures RowsFor(txs, RowKey(txs[i])) == [txs[i]]
  {
    var front, k := txs[..|txs| - 1], RowKey(txs[i]);
    if i == |txs| - 1 {
      NoRowsFor(front, k);
    } else {
      OneRowFor(front, i);
    }
  }

  lemma {:induction false} MergedAt(m: Rows, added: seq<WalletTx>, k: string)
    requires WellKeyed(m)
    ensures var rows := Candidates(m, added, k);
            && (k in Merged(m, added, |added|) <==> rows != [])
            && (rows != [] ==> Merged(m, added, |added|)[k] == Pick(rows) && Pick(rows) in rows)
    ensures forall tx :: tx in Candidates(m, added, k) ==> (k in m && tx == m[k]) || (tx in added && RowKey(tx) == k)
  {
    assert added[..|added|] == added;
    MergedRow(m, added, k, |added|);
    RowsForIn(added, k);
    if Candidates(m, added, k) != [] {
      PickIsOne(Candidates(m, added, k));
    }
  }

  lemma {:induction false} AddedIsTold(m: Rows, added: seq<WalletTx>, i: nat)
    requires CleanRows(m) && AllClean(added) && i < |added|
    ensures var after := Merged(m, added, |added|);
            && TellsOf(after, added[i])
            && (!TellsOf(m, added[i]) && Single(added, i) ==> added[i] in after.Values)
  {
    var k, after := RowKey(added[i]), Merged(m, added, |added|);
    MergedAt(m, added, k);
    RowsForIn(added, k);
    PendingWellKeyed(m, added, |added|);
    assert added[i] in added && k in after && after[k] in Candidates(m, added, k);
    RowKeyIff(after[k], added[i]);
    if !TellsOf(m, added[i]) && Single(added, i) {
      if k in m {
        RowKeyIff(m[k], added[i]);
      }
      forall j | 0 <= j < |added| && j != i
        ensures RowKey(added[j]) != k
      {
        assert added[j] in added;
        RowKeyIff(added[j], added[i]);
      }
      OneRowFor(added, i);
      assert Candidates(m, added, k) == [added[i]];
      assert after[k] == added[i];
    }
  }

  lemma {:induction false} StoredStays(m: Rows, added: seq<WalletTx>, k: string)
    requires CleanRows(m) && AllClean(added)
    ensures var after := Merged(m, added, |added|);
            && (k in m ==> k in after)
            && (k in m && !Tells(added, m[k]) ==> after[k] == m[k])
            && (k in after ==> after[k] in added || (k in m && after[k] == m[k]))
  {
    MergedAt(m, added, k);
    if k in m && !Tells(added, m[k]) {
      forall tx | tx in added
        ensures RowKey(tx) != k
      {
        RowKeyIff(tx, m[k]);
      }
      NoRowsFor(added, k);
      assert Candidates(m, added, k) == [m[k]];
    }
  }

  lemma {:induction false} MergeRecords(m: Rows, added: seq<WalletTx>)
    requires CleanRows(m) && AllClean(added)
    ensures HistoryRecorded(m, added, Merged(m, added, |added|))
  {
    var after := Merged(m, added, |added|);
    forall i | 0 <= i < |added|
      ensures TellsOf(after, added[i])
      ensures !TellsOf(m, added[i]) && Single(added, i) ==> added[i] in after.Values
    {
      AddedIsTold(m, added, i);
    }
    forall k
      ensures k in m ==> k in after
      ensures k in m && !Tells(added, m[k]) ==> after[k] == m[k]
      ensures k in after ==> after[k] in added || (k in m && after[k] == m[k])
    {
      StoredStays(m, added, k);
    }
  }
}
