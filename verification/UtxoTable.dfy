/** The persistent table of unspent outputs: differential replacement and what it amounts to. */
module UtxoTable {
  import opened Bytes
  import opened KeySet
  import opened Outcome
  import opened Wallet

  datatype Value = Value(sats: I64, script: Text, height: U32)
  datatype Row = Row(value: Value, fetchedAt: int)
  type Table = map<Outpoint, Row>

  /** Settings and key sets stored as text beside the rows. */
  type Meta = map<string, string>

  function MetaAt(meta: Meta, key: string): Option<string> {
    if key in meta then Some(meta[key]) else None
  }

  function KeyOf(u: Utxo): Outpoint { Outpoint(u.txid, u.vout) }
  function ValueOf(u: Utxo): Value { Value(u.valueSats, u.scriptHex, u.height) }

  function Keys(utxos: seq<Utxo>): set<Outpoint> {
    set i | 0 <= i < |utxos| :: KeyOf(utxos[i])
  }

  /** The table without the times at which its rows were written. */
  function Contents(t: Table): map<Outpoint, Value> {
    map k | k in t :: t[k].value
  }

  predicate Distinct(utxos: seq<Utxo>) {
    forall i, j :: 0 <= i < j < |utxos| ==> KeyOf(utxos[i]) != KeyOf(utxos[j])
  }

  predicate Same(existing: Table, u: Utxo) {
    KeyOf(u) in existing && existing[KeyOf(u)].value == ValueOf(u)
  }

  // ---------------------------------------------------------------- what replacing does

  /** The first n of the incoming entries written, except those that equal the row found at the start. */
  function UpsertedTo(existing: Table, utxos: seq<Utxo>, now: int, n: nat): Table
    requires n <= |utxos|
  {
    if n == 0 then existing
    else
      var t := UpsertedTo(existing, utxos, now, n - 1);
      if Same(existing, utxos[n - 1]) then t else t[KeyOf(utxos[n - 1]) := Row(ValueOf(utxos[n - 1]), now)]
  }

  function Replaced(existing: Table, utxos: seq<Utxo>, now: int): Table {
    var t := UpsertedTo(existing, utxos, now, |utxos|);
    map k | k in t && k in Keys(utxos) :: t[k]
  }

  predicate Differs(existing: Table, utxos: seq<Utxo>) {
    || (exists i :: 0 <= i < |utxos| && !Same(existing, utxos[i]))
    || exists k :: k in existing && k !in Keys(utxos)
  }

  /** What a listing of the table looks like: every row once, highest first, in any order at one height. */
  ghost predicate Listing(t: Table, r: seq<Utxo>) {
    && Keys(r) == t.Keys && Distinct(r)
    && (forall i :: 0 <= i < |r| ==> r[i] == UtxoAt(t, KeyOf(r[i])))
    && forall i, j :: 0 <= i < j < |r| ==> r[i].height >= r[j].height
  }

  function UtxoAt(t: Table, k: Outpoint): Utxo {
    if k in t then Utxo(k.txid, k.vout, t[k].value.sats, t[k].value.height, "", t[k].value.script)
    else Utxo(k.txid, k.vout, 0, 0, "", "")
  }

  function WithUtxo(listed: seq<Utxo>, u: Utxo): seq<Utxo> {
    if listed == [] then [u]
    else if KeyOf(listed[0]) == KeyOf(u) then [u] + listed[1..]
    else [listed[0]] + WithUtxo(listed[1..], u)
  }

  /** A single map update; a row that is there already keeps its time. */
  function Upserted(t: Table, u: Utxo, now: int): Table {
    if Same(t, u) then t else t[KeyOf(u) := Row(ValueOf(u), now)]
  }

  // ---------------------------------------------------------------- the code

  class SqliteWalletCache {
    var table: Table
    var meta: Meta

    constructor ()
      ensures table == map[] && meta == map[]
    {
      table, meta := map[], map[];
    }

    method SetMeta(key: string, value: string)
      modifies this
      ensures meta == old(meta)[key := value] && table == old(table)
    {
      meta := meta[key := value];
    }

    method GetMeta(key: string) returns (r: Option<string>)
      ensures r == MetaAt(meta, key)
    {
      r := if key in meta then Some(meta[key]) else None;
    }

    /** The rows by falling height. */
    method ListUtxos() returns (r: seq<Utxo>)
      ensures Listing(table, r)
    {
      r := [];
      var rest := table.Keys;
      while rest != {}
        invariant rest <= table.Keys && Keys(r) == table.Keys - rest && Distinct(r)
        invariant forall i :: 0 <= i < |r| ==> r[i] == UtxoAt(table, KeyOf(r[i]))
        invariant forall i, j :: 0 <= i < j < |r| ==> r[i].height >= r[j].height
        invariant forall i, k :: 0 <= i < |r| && k in rest ==> r[i].height >= table[k].value.height
      {
        HighestExists(table, rest);
        var k :| k in rest && forall j :: j in rest ==> table[j].value.height <= table[k].value.height;
        KeysAppend(r, UtxoAt(table, k));
        r := r + [UtxoAt(table, k)];
        rest := rest - {k};
      }
    }

    method ReplaceUtxos(utxos: seq<Utxo>, now: int) returns (changed: bool)
      modifies this
      ensures table == Replaced(old(table), utxos, now) && meta == old(meta)
      ensures changed == Differs(old(table), utxos)
    {
      var existing := table;
      var incoming := Keys(utxos);
      changed := false;
      for i := 0 to |utxos|
        invariant table == UpsertedTo(existing, utxos, now, i) && meta == old(meta)
        invariant changed <==> exists j :: 0 <= j < i && !Same(existing, utxos[j])
      {
        var u := utxos[i];
        if KeyOf(u) in existing && existing[KeyOf(u)].value == ValueOf(u) {
          continue;
        }
        changed := true;
        table := table[KeyOf(u) := Row(ValueOf(u), now)];
      }
      UpsertedKeys(existing, utxos, now, |utxos|);
      ghost var upserted, news := table, changed;
      var rest := existing.Keys;
      while rest != {}
        invariant rest <= existing.Keys && meta == old(meta)
        invariant table == map k | k in upserted && (k in incoming || k in rest || k !in existing) :: upserted[k]
        invariant changed <==> (news || exists k :: k in existing && k !in rest && k !in incoming)
      {
        var k :| k in rest;
        if k !in incoming {
          changed := true;
          table := table - {k};
        }
        rest := rest - {k};
      }
    }

    method UpsertUtxo(u: Utxo, now: int)
      modifies this
      ensures table == Upserted(old(table), u, now) && meta == old(meta)
    {
      var listed := ListUtxos();
      var utxos := PutInList(listed, u);
      UpsertIsOneUpdate(table, listed, u, now);
      var _ := ReplaceUtxos(utxos, now);
    }

    method RemoveUtxo(k: Outpoint) returns (removed: bool)
      modifies this
      ensures table == old(table) - {k} && meta == old(meta)
      ensures removed <==> k in old(table)
    {
      removed := k in table;
      table := table - {k};
    }
  }

  /** Overwrites the first entry for the outpoint, or appends. */
  method PutInList(listed: seq<Utxo>, u: Utxo) returns (utxos: seq<Utxo>)
    ensures utxos == WithUtxo(listed, u)
  {
    var i := 0;
    while i < |listed| && KeyOf(listed[i]) != KeyOf(u)
      invariant 0 <= i <= |listed|
      invariant WithUtxo(listed, u) == listed[..i] + WithUtxo(listed[i..], u)
    {
      assert listed[i..][1..] == listed[i + 1..];
      assert listed[..i + 1] == listed[..i] + [listed[i]];
      i := i + 1;
    }
    if i < |listed| {
      utxos := listed[i := u];
      assert utxos == listed[..i] + ([u] + listed[i..][1..]);
    } else {
      utxos := listed + [u];
    }
  }

  // ---------------------------------------------------------------- lemmas

  lemma {:induction false} HighestExists(t: Table, ks: set<Outpoint>)
    requires ks != {} && ks <= t.Keys
    ensures exists k :: k in ks && forall j :: j in ks ==> t[j].value.height <= t[k].value.height
  {
    var k :| k in ks;
    if ks != {k} {
      HighestExists(t, ks - {k});
      var m :| m in ks - {k} && forall j :: j in ks - {k} ==> t[j].value.height <= t[m].value.height;
      var top := if t[k].value.height <= t[m].value.height then m else k;
      assert top in ks && forall j :: j in ks ==> j == k || j in ks - {k};
    }
  }

  lemma {:induction false} KeysAppend(utxos: seq<Utxo>, u: Utxo)
    ensures Keys(utxos + [u]) == Keys(utxos) + {KeyOf(u)}
  {
    var all := utxos + [u];
    forall k | k in Keys(utxos)
      ensures k in Keys(all)
    {
      var i :| 0 <= i < |utxos| && KeyOf(utxos[i]) == k;
      assert all[i] == utxos[i];
    }
    assert KeyOf(all[|utxos|]) == KeyOf(u);
  }

  lemma {:induction false} UpsertedKeys(existing: Table, utxos: seq<Utxo>, now: int, n: nat)
    requires n <= |utxos|
    ensures forall k :: k in UpsertedTo(existing, utxos, now, n) ==> k in existing || k in Keys(utxos)
    ensures forall k :: k in existing ==> k in UpsertedTo(existing, utxos, now, n)
    ensures forall i :: 0 <= i < n ==> KeyOf(utxos[i]) in UpsertedTo(existing, utxos, now, n)
  {
    if n > 0 {
      UpsertedKeys(existing, utxos, now, n - 1);
    }
  }

  /** The last of the first n entries that is for `k` and not what the table held. */
  function LastNew(existing: Table, utxos: seq<Utxo>, k: Outpoint, n: nat): (r: Option<nat>)
    requires n <= |utxos|
    ensures match r
            case None => forall i :: 0 <= i < n && KeyOf(utxos[i]) == k ==> Same(existing, utxos[i])
            case Some(i) => && i < n && KeyOf(utxos[i]) == k && !Same(existing, utxos[i])
                            && forall j :: i < j < n && KeyOf(utxos[j]) == k ==> Same(existing, utxos[j])
  {
    if n == 0 then None
    else if KeyOf(utxos[n - 1]) == k && !Same(existing, utxos[n - 1]) then Some(n - 1)
    else LastNew(existing, utxos, k, n - 1)
  }

  lemma {:induction false} RowFacts(existing: Table, utxos: seq<Utxo>, now: int, k: Outpoint, n: nat)
    requires n <= |utxos|
    ensures var t := UpsertedTo(existing, utxos, now, n);
            match LastNew(existing, utxos, k, n)
            case None => (k in t <==> k in existing) && (k in t ==> t[k] == existing[k])
            case Some(i) => k in t && t[k] == Row(ValueOf(utxos[i]), now)
  {
    if n > 0 {
      RowFacts(existing, utxos, now, k, n - 1);
    }
  }

  /** Any list, repetitions included: which row each key ends up with, and that no other key stays. */
  lemma {:induction false} ReplacedRow(existing: Table, utxos: seq<Utxo>, now: int, k: Outpoint)
    ensures var t := Replaced(existing, utxos, now);
            && (k in t <==> k in Keys(utxos))
            && (k in t ==> match LastNew(existing, utxos, k, |utxos|)
                           case None => k in existing && t[k] == existing[k]
                           case Some(i) => t[k] == Row(ValueOf(utxos[i]), now))
  {
    RowFacts(existing, utxos, now, k, |utxos|);
    if k in Keys(utxos) {
      var i :| 0 <= i < |utxos| && KeyOf(utxos[i]) == k;
    }
  }

  /** Plain replacement: the table emptied and filled in order. */
  function Plain(utxos: seq<Utxo>, n: nat): map<Outpoint, Value>
    requires n <= |utxos|
  {
    if n == 0 then map[] else Plain(utxos, n - 1)[KeyOf(utxos[n - 1]) := ValueOf(utxos[n - 1])]
  }

  predicate IsLast(utxos: seq<Utxo>, i: nat)
    requires i < |utxos|
  {
    forall j :: i < j < |utxos| ==> KeyOf(utxos[j]) != KeyOf(utxos[i])
  }

  /** The last of the first n entries for a key. */
  function LastFor(utxos: seq<Utxo>, k: Outpoint, n: nat): (r: Option<nat>)
    requires n <= |utxos|
    ensures match r
            case None => forall j :: 0 <= j < n ==> KeyOf(utxos[j]) != k
            case Some(i) => i < n && KeyOf(utxos[i]) == k && forall j :: i < j < n ==> KeyOf(utxos[j]) != k
  {
    if n == 0 then None else if KeyOf(utxos[n - 1]) == k then Some(n - 1) else LastFor(utxos, k, n - 1)
  }

  lemma {:induction false} PlainRow(utxos: seq<Utxo>, k: Outpoint, n: nat)
    requires n <= |utxos|
    ensures match LastFor(utxos, k, n)
            case None => k !in Plain(utxos, n)
            case Some(i) => k in Plain(utxos, n) && Plain(utxos, n)[k] == ValueOf(utxos[i])
  {
    if n > 0 {
      PlainRow(utxos, k, n - 1);
    }
  }

  /** No outpoint comes first with news and last as the table had it. */
  predicate NoStaleEnd(existing: Table, utxos: seq<Utxo>) {
    forall i, j ::
      0 <= i < j < |utxos| && KeyOf(utxos[i]) == KeyOf(utxos[j]) && IsLast(utxos, j) && Same(existing, utxos[j]) ==>
        Same(existing, utxos[i])
  }

  /** The differential replacement leaves what plain replacement would, exactly when no repeated outpoint ends stale. */
  lemma {:induction false} ReplaceIsPlainIff(existing: Table, utxos: seq<Utxo>, now: int)
    ensures Contents(Replaced(existing, utxos, now)) == Plain(utxos, |utxos|) <==> NoStaleEnd(existing, utxos)
    ensures Distinct(utxos) ==> NoStaleEnd(existing, utxos)
  {
    var t, plain := Replaced(existing, utxos, now), Plain(utxos, |utxos|);
    forall k
      ensures k in t <==> k in plain
      ensures k in t && NoStaleEnd(existing, utxos) ==> t[k].value == plain[k]
    {
      RowAgainstPlain(existing, utxos, now, k);
    }
    if !NoStaleEnd(existing, utxos) {
      var i, j :| 0 <= i < j < |utxos| && KeyOf(utxos[i]) == KeyOf(utxos[j]) && IsLast(utxos, j)
                  && Same(existing, utxos[j]) && !Same(existing, utxos[i]);
      StaleEnd(existing, utxos, now, i, j);
    }
  }

  lemma {:induction false} RowAgainstPlain(existing: Table, utxos: seq<Utxo>, now: int, k: Outpoint)
    ensures var t, plain := Replaced(existing, utxos, now), Plain(utxos, |utxos|);
            && (k in t <==> k in plain)
            && (k in t && NoStaleEnd(existing, utxos) ==> t[k].value == plain[k])
  {
    ReplacedRow(existing, utxos, now, k);
    PlainRow(utxos, k, |utxos|);
    var last, news := LastFor(utxos, k, |utxos|), LastNew(existing, utxos, k, |utxos|);
    if last.Some? {
      assert k == KeyOf(utxos[last.value]) && k in Keys(utxos) && IsLast(utxos, last.value);
      if news.Some? {
        assert news.value == last.value || (news.value < last.value && Same(existing, utxos[last.value]));
      }
    }
  }

  lemma {:induction false} StaleEnd(existing: Table, utxos: seq<Utxo>, now: int, i: nat, j: nat)
    requires i < j < |utxos| && KeyOf(utxos[i]) == KeyOf(utxos[j]) && IsLast(utxos, j)
    requires Same(existing, utxos[j]) && !Same(existing, utxos[i])
    ensures Contents(Replaced(existing, utxos, now)) != Plain(utxos, |utxos|)
  {
    var k := KeyOf(utxos[j]);
    PlainRow(utxos, k, |utxos|);
    ReplacedRow(existing, utxos, now, k);
    assert Plain(utxos, |utxos|)[k] == existing[k].value;
    assert k in Keys(utxos) && LastNew(existing, utxos, k, |utxos|).Some?;
    assert Contents(Replaced(existing, utxos, now))[k] != existing[k].value;
  }

  /** The reported change is a change of the contents, for any list. */
  lemma {:induction false} ChangedMeansDifferent(existing: Table, utxos: seq<Utxo>, now: int)
    ensures Differs(existing, utxos) <==> Contents(Replaced(existing, utxos, now)) != Contents(existing)
  {
    var t := Replaced(existing, utxos, now);
    if i :| 0 <= i < |utxos| && !Same(existing, utxos[i]) {
      var k := KeyOf(utxos[i]);
      ReplacedRow(existing, utxos, now, k);
      assert k in Keys(utxos) && LastNew(existing, utxos, k, |utxos|).Some?;
      assert k in Contents(t) && (k in Contents(existing) ==> Contents(t)[k] != Contents(existing)[k]);
    } else if k :| k in existing && k !in Keys(utxos) {
      ReplacedRow(existing, utxos, now, k);
      assert k in Contents(existing) && k !in Contents(t);
    } else {
      forall k
        ensures k in t <==> k in existing
        ensures k in t ==> t[k] == existing[k]
      {
        ReplacedRow(existing, utxos, now, k);
        if k in Keys(utxos) {
          var i :| 0 <= i < |utxos| && KeyOf(utxos[i]) == k;
          assert Same(existing, utxos[i]);
        }
      }
      assert t == existing;
    }
  }

  /**
   * Distinct outpoints: every row has its entry's contents, keeping its time if it had them and taking `now` if
   * not.
   */
  lemma {:induction false} TimesKept(existing: Table, utxos: seq<Utxo>, now: int, i: nat)
    requires Distinct(utxos) && i < |utxos|
    ensures var t, k := Replaced(existing, utxos, now), KeyOf(utxos[i]);
            && k in t && t[k].value == ValueOf(utxos[i])
            && t[k].fetchedAt == if Same(existing, utxos[i]) then existing[k].fetchedAt else now
  {
    ReplacedRow(existing, utxos, now, KeyOf(utxos[i]));
    assert KeyOf(utxos[i]) in Keys(utxos);
  }

  lemma {:induction false} WithUtxoKeys(listed: seq<Utxo>, u: Utxo)
    ensures Keys(WithUtxo(listed, u)) == Keys(listed) + {KeyOf(u)}
  {
    if listed == [] {
      KeysPrepend(u, []);
      assert [u] == [u] + [];
    } else {
      var head, tail := listed[0], listed[1..];
      assert listed == [head] + tail;
      KeysPrepend(head, tail);
      KeysPrepend(u, tail);
      KeysPrepend(head, WithUtxo(tail, u));
      WithUtxoKeys(tail, u);
    }
  }

  lemma {:induction false} WithUtxoFacts(listed: seq<Utxo>, u: Utxo)
    requires Distinct(listed)
    ensures Distinct(WithUtxo(listed, u)) && u in WithUtxo(listed, u)
    ensures forall v :: v in WithUtxo(listed, u) ==> v == u || (v in listed && KeyOf(v) != KeyOf(u))
  {
    var r := WithUtxo(listed, u);
    if listed != [] {
      if KeyOf(listed[0]) != KeyOf(u) {
        var rest := WithUtxo(listed[1..], u);
        WithUtxoFacts(listed[1..], u);
        assert forall j :: 0 <= j < |rest| ==> rest[j] in rest;
      }
      forall v | v in r
        ensures v == u || (v in listed && KeyOf(v) != KeyOf(u))
      {
        var j :| 0 <= j < |r| && r[j] == v;
        if KeyOf(listed[0]) == KeyOf(u) && j > 0 {
          assert listed[j] == v;
        }
      }
    }
  }

  lemma {:induction false} KeysPrepend(u: Utxo, utxos: seq<Utxo>)
    ensures Keys([u] + utxos) == {KeyOf(u)} + Keys(utxos)
  {
    var all := [u] + utxos;
    assert KeyOf(all[0]) == KeyOf(u);
    forall k | k in Keys(utxos)
      ensures k in Keys(all)
    {
      var i :| 0 <= i < |utxos| && KeyOf(utxos[i]) == k;
      assert all[i + 1] == utxos[i];
    }
  }

  lemma {:induction false} UpsertRow(t: Table, listed: seq<Utxo>, u: Utxo, now: int, i: nat)
    requires Listing(t, listed) && i < |WithUtxo(listed, u)|
    ensures var k := KeyOf(WithUtxo(listed, u)[i]);
            && k in Replaced(t, WithUtxo(listed, u), now) && k in Upserted(t, u, now)
            && Replaced(t, WithUtxo(listed, u), now)[k] == Upserted(t, u, now)[k]
  {
    var utxos := WithUtxo(listed, u);
    WithUtxoFacts(listed, u);
    TimesKept(t, utxos, now, i);
    assert utxos[i] in utxos;
    if utxos[i] != u {
      var j :| 0 <= j < |listed| && listed[j] == utxos[i];
      assert KeyOf(listed[j]) in Keys(listed);
    }
  }

  /** Listing, editing the list and replacing the table is one map update. */
  lemma {:induction false} UpsertIsOneUpdate(t: Table, listed: seq<Utxo>, u: Utxo, now: int)
    requires Listing(t, listed)
    ensures Replaced(t, WithUtxo(listed, u), now) == Upserted(t, u, now)
  {
    var utxos := WithUtxo(listed, u);
    var r, s := Replaced(t, utxos, now), Upserted(t, u, now);
    WithUtxoKeys(listed, u);
    forall k
      ensures k in r <==> k in s
      ensures k in r ==> r[k] == s[k]
    {
      ReplacedRow(t, utxos, now, k);
      if k in Keys(utxos) {
        var i :| 0 <= i < |utxos| && KeyOf(utxos[i]) == k;
        UpsertRow(t, listed, u, now, i);
      }
    }
  }

  // ---------------------------------------------------------------- reading back

  /** The coin as the table gives it back: everything but its address. */
  function WithoutAddress(u: Utxo): Utxo {
    Utxo(u.txid, u.vout, u.valueSats, u.height, "", u.scriptHex)
  }

  /** After replacing the table by coins of distinct outpoints, a listing gives exactly those back. */
  lemma {:induction false} ListingReadsBack(t: Table, utxos: seq<Utxo>, now: int, r: seq<Utxo>)
    requires Distinct(utxos) && Listing(Replaced(t, utxos, now), r)
    ensures forall u :: u in utxos ==> WithoutAddress(u) in r
    ensures forall x :: x in r ==> exists u :: u in utxos && x == WithoutAddress(u)
    ensures forall i, j :: 0 <= i < j < |r| ==> r[i].txid != r[j].txid || r[i].vout != r[j].vout
    ensures forall i, j :: 0 <= i < j < |r| ==> r[i].height >= r[j].height
  {
    var after := Replaced(t, utxos, now);
    forall u | u in utxos
      ensures WithoutAddress(u) in r
    {
      var i :| 0 <= i < |utxos| && utxos[i] == u;
      TimesKept(t, utxos, now, i);
      assert KeyOf(u) in Keys(r);
      var j :| 0 <= j < |r| && KeyOf(r[j]) == KeyOf(u);
      assert r[j] == UtxoAt(after, KeyOf(u));
    }
    forall x | x in r
      ensures exists u :: u in utxos && x == WithoutAddress(u)
    {
      var j :| 0 <= j < |r| && r[j] == x;
      assert KeyOf(x) in Keys(r);
      ReplacedRow(t, utxos, now, KeyOf(x));
      var i :| 0 <= i < |utxos| && KeyOf(utxos[i]) == KeyOf(x);
      TimesKept(t, utxos, now, i);
      assert x == WithoutAddress(utxos[i]);
    }
  }
}
