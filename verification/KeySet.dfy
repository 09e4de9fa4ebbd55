/** Sets of outpoints kept as text: `txid:vout` joined by commas. */
module KeySet {
  import opened Bytes
  import opened Outcome

  datatype Outpoint = Outpoint(txid: string, vout: U32)

  // ---------------------------------------------------------------- numbers

  predicate IsDigit(c: char) {
    '0' <= c <= '9'
  }

  function Decimal(n: nat): (s: string)
    ensures s != "" && forall k :: 0 <= k < |s| ==> IsDigit(s[k])
  {
    var last := [('0' as int + n % 10) as char];
    if n < 10 then last else Decimal(n / 10) + last
  }

  function DigitsValue(s: string): Option<nat> {
    if s == "" then Some(0)
    else
      match DigitsValue(s[..|s| - 1])
      case None => None
      case Some(n) =>
        var c := s[|s| - 1];
        if IsDigit(c) then Some(10 * n + (c as int - '0' as int)) else None
  }

  /** Unsigned parsing: an optional plus sign, then digits, without overflow. */
  function ParseBelow(bound: nat, s: string): (r: Option<nat>)
    ensures r.Some? ==> r.value < bound
  {
    var digits := if s != "" && s[0] == '+' then s[1..] else s;
    if digits == "" then None
    else
      match DigitsValue(digits)
      case None => None
      case Some(n) => if n < bound then Some(n) else None
  }

  function ParseU32(s: string): Option<U32> {
    ParseBelow(TWO_32, s)
  }

  function ParseU64(s: string): Option<U64> {
    ParseBelow(TWO_64, s)
  }

  lemma {:induction false} DigitsRoundTrip(n: nat)
    ensures DigitsValue(Decimal(n)) == Some(n)
  {
    var s := Decimal(n);
    if n < 10 {
      assert s[..|s| - 1] == "";
    } else {
      assert s[..|s| - 1] == Decimal(n / 10);
      DigitsRoundTrip(n / 10);
    }
  }

  lemma {:induction false} U32RoundTrip(n: U32)
    ensures ParseU32(Decimal(n)) == Some(n)
  {
    DigitsRoundTrip(n);
  }

  lemma {:induction false} U64RoundTrip(n: U64)
    ensures ParseU64(Decimal(n)) == Some(n)
  {
    DigitsRoundTrip(n);
  }

  // ---------------------------------------------------------------- splitting

  /** The pieces of `s` between separators; never none. */
  function Split(s: string, sep: char): (parts: seq<string>)
    ensures parts != []
  {
    if s == "" then [""]
    else
      var rest := Split(s[1..], sep);
      if s[0] == sep then [""] + rest else [[s[0]] + rest[0]] + rest[1..]
  }

  function Join(parts: seq<string>, sep: char): string {
    if parts == [] then "" else if |parts| == 1 then parts[0] else parts[0] + [sep] + Join(parts[1..], sep)
  }

  lemma {:induction false} SplitPiece(a: string, rest: string, sep: char)
    requires sep !in a
    ensures Split(a, sep) == [a]
    ensures Split(a + [sep] + rest, sep) == [a] + Split(rest, sep)
  {
    var s := a + [sep] + rest;
    if a == "" {
      assert s[1..] == rest;
    } else {
      SplitPiece(a[1..], rest, sep);
      assert a == [a[0]] + a[1..];
      assert s[1..] == a[1..] + [sep] + rest;
    }
  }

  lemma {:induction false} SplitJoin(parts: seq<string>, sep: char)
    requires parts != [] && forall k :: 0 <= k < |parts| ==> sep !in parts[k]
    ensures Split(Join(parts, sep), sep) == parts
  {
    if |parts| == 1 {
      SplitPiece(parts[0], "", sep);
    } else {
      SplitPiece(parts[0], Join(parts[1..], sep), sep);
      SplitJoin(parts[1..], sep);
    }
  }

  lemma {:induction false} SplitClean(s: string, sep: char)
    ensures forall k :: 0 <= k < |Split(s, sep)| ==> sep !in Split(s, sep)[k]
  {
    if s != "" {
      SplitClean(s[1..], sep);
    }
  }

  function SplitOnce(s: string, sep: char): (r: Option<(string, string)>)
    ensures r.Some? <==> sep in s
    ensures r.Some? ==> s == r.value.0 + [sep] + r.value.1 && sep !in r.value.0
  {
    if s == "" then None
    else if s[0] == sep then Some(("", s[1..]))
    else
      match SplitOnce(s[1..], sep)
      case None => None
      case Some(pair) => Some(([s[0]] + pair.0, pair.1))
  }

  lemma {:induction false} SplitOnceAt(a: string, b: string, sep: char)
    requires sep !in a
    ensures SplitOnce(a + [sep] + b, sep) == Some((a, b))
  {
    var s := a + [sep] + b;
    if a == "" {
      assert s[1..] == b;
    } else {
      assert a == [a[0]] + a[1..];
      assert s[1..] == a[1..] + [sep] + b;
      SplitOnceAt(a[1..], b, sep);
    }
  }

  // ---------------------------------------------------------------- key sets

  function PrintKey(k: Outpoint): string {
    k.txid + [':'] + Decimal(k.vout)
  }

  function PrintKeys(keys: seq<Outpoint>): string {
    Join(seq(|keys|, i requires 0 <= i < |keys| => PrintKey(keys[i])), ',')
  }

  function ParseKey(part: string): Option<Outpoint> {
    match SplitOnce(part, ':')
    case None => None
    case Some(pair) =>
      match ParseU32(pair.1)
      case None => None
      case Some(v) => Some(Outpoint(pair.0, v))
  }

  function KeysOf(parts: seq<string>): set<Outpoint> {
    set k | 0 <= k < |parts| && ParseKey(parts[k]).Some? :: ParseKey(parts[k]).value
  }

  /** What is not understood is dropped; nothing stored is the empty set. */
  function ParsedKeys(raw: Option<string>): set<Outpoint> {
    match raw
    case None => {}
    case Some(s) => KeysOf(Split(s, ','))
  }

  method ParseUtxoKeySet(raw: Option<string>) returns (out: set<Outpoint>)
    ensures out == ParsedKeys(raw)
  {
    out := {};
    if raw.None? {
      return;
    }
    var parts := Split(raw.value, ',');
    for i := 0 to |parts|
      invariant out == KeysOf(parts[..i])
    {
      assert parts[..i + 1] == parts[..i] + [parts[i]];
      KeysOfAppend(parts[..i], parts[i]);
      match SplitOnce(parts[i], ':') {
        case None =>
        case Some(pair) =>
          match ParseU32(pair.1) {
            case None =>
            case Some(v) => out := out + {Outpoint(pair.0, v)};
          }
      }
    }
    assert parts[..|parts|] == parts;
  }

  lemma {:induction false} KeysOfAppend(parts: seq<string>, part: string)
    ensures KeysOf(parts + [part]) == KeysOf(parts) + match ParseKey(part) case None => {} case Some(k) => {k}
  {
    var all := parts + [part];
    forall x | x in KeysOf(parts)
      ensures x in KeysOf(all)
    {
      var k :| 0 <= k < |parts| && ParseKey(parts[k]) == Some(x);
      assert all[k] == parts[k];
    }
    if ParseKey(part).Some? {
      assert all[|parts|] == part;
    }
  }

  /** A transaction id that the text form can carry. */
  predicate CleanTxid(txid: string) {
    ',' !in txid && ':' !in txid
  }

  /** Whatever was stored, the keys read from it have clean ids. */
  lemma {:induction false} ParsedAreClean(raw: Option<string>)
    ensures forall k :: k in ParsedKeys(raw) ==> CleanTxid(k.txid)
  {
    if raw.Some? {
      var parts := Split(raw.value, ',');
      SplitClean(raw.value, ',');
      forall x | x in ParsedKeys(raw)
        ensures CleanTxid(x.txid)
      {
        var k :| 0 <= k < |parts| && ParseKey(parts[k]) == Some(x);
        var pair := SplitOnce(parts[k], ':').value;
        assert parts[k] == x.txid + [':'] + pair.1;
        assert forall i :: 0 <= i < |x.txid| ==> parts[k][i] == x.txid[i];
      }
    }
  }

  lemma {:induction false} KeyRoundTrip(k: Outpoint)
    requires CleanTxid(k.txid)
    ensures ParseKey(PrintKey(k)) == Some(k) && ',' !in PrintKey(k)
  {
    SplitOnceAt(k.txid, Decimal(k.vout), ':');
    U32RoundTrip(k.vout);
  }

  /** Keys read back are the keys written, in any order and with repetitions, exactly when every id is clean. */
  lemma {:induction false} KeysRoundTripIff(keys: seq<Outpoint>)
    ensures ParsedKeys(Some(PrintKeys(keys))) == (set k | k in keys) <==> forall k :: k in keys ==> CleanTxid(k.txid)
  {
    if forall k :: k in keys ==> CleanTxid(k.txid) {
      KeysRoundTrip(keys);
    } else {
      var k :| k in keys && !CleanTxid(k.txid);
      ParsedAreClean(Some(PrintKeys(keys)));
      assert k in (set x | x in keys) && k !in ParsedKeys(Some(PrintKeys(keys)));
    }
  }

  lemma {:induction false} KeysRoundTrip(keys: seq<Outpoint>)
    requires forall k :: k in keys ==> CleanTxid(k.txid)
    ensures ParsedKeys(Some(PrintKeys(keys))) == set k | k in keys
  {
    var parts := seq(|keys|, i requires 0 <= i < |keys| => PrintKey(keys[i]));
    forall i | 0 <= i < |keys|
      ensures ParseKey(parts[i]) == Some(keys[i]) && ',' !in parts[i]
    {
      KeyRoundTrip(keys[i]);
    }
    if keys == [] {
      assert Split("", ',') == [""];
      assert ParseKey("").None?;
    } else {
      SplitJoin(parts, ',');
      forall k | k in keys
        ensures k in KeysOf(parts)
      {
        var i :| 0 <= i < |keys| && keys[i] == k;
        assert ParseKey(parts[i]) == Some(k);
      }
    }
  }

  // ---------------------------------------------------------------- the text itself

  function Pow10(k: nat): nat {
    if k == 0 then 1 else 10 * Pow10(k - 1)
  }

  lemma {:induction false} TimesTen(n: nat, p: nat)
    ensures 10 * (n * p) == n * (10 * p)
  {
  }

  /** Reading digits: a single one is its value, and those in front count ten times as much. */
  lemma {:induction false} DigitsAreDecimal(a: string, b: string)
    requires DigitsValue(a).Some? && DigitsValue(b).Some?
    ensures DigitsValue(a + b) == Some(DigitsValue(a).value * Pow10(|b|) + DigitsValue(b).value)
  {
    var s := a + b;
    if b == "" {
      assert s == a;
    } else {
      var front := b[..|b| - 1];
      assert s[..|s| - 1] == a + front;
      DigitsAreDecimal(a, front);
      TimesTen(DigitsValue(a).value, Pow10(|front|));
    }
  }

  lemma {:induction false} DigitIsItsValue(d: nat)
    requires d < 10
    ensures DigitsValue(["0123456789"[d]]) == Some(d)
  {
    var s := ["0123456789"[d]];
    assert s[..|s| - 1] == "";
  }

  /** Printing: no leading zero, except for zero itself. */
  lemma {:induction false} DecimalHasNoLeadingZero(n: nat)
    ensures Decimal(n)[0] == '0' <==> n == 0
  {
    if n >= 10 {
      DecimalHasNoLeadingZero(n / 10);
    }
  }

  lemma {:induction false} JoinSplit(s: string, sep: char)
    ensures Join(Split(s, sep), sep) == s
  {
    if s != "" {
      JoinSplit(s[1..], sep);
      var rest := Split(s[1..], sep);
      assert s == [s[0]] + s[1..];
      if s[0] == sep {
        assert ([""] + rest)[1..] == rest;
      } else {
        assert ([[s[0]] + rest[0]] + rest[1..])[1..] == rest[1..];
      }
    }
  }
}
