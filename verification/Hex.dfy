/** Hexadecimal text, trimming, and transaction ids in display order. */
module Hex {
  import opened Bytes
  import opened Outcome

  function HexDigit(n: nat): char
    requires n < 16
  {
    if n < 10 then ('0' as int + n) as char else ('a' as int + n - 10) as char
  }

  /** Both letter cases are accepted. */
  function HexValue(c: char): (r: Option<nat>)
    ensures r.Some? ==> r.value < 16
  {
    if '0' <= c <= '9' then Some(c as int - '0' as int)
    else if 'a' <= c <= 'f' then Some(c as int - 'a' as int + 10)
    else if 'A' <= c <= 'F' then Some(c as int - 'A' as int + 10)
    else None
  }

  function HexEncode(bs: seq<Byte>): (s: string)
    ensures |s| == 2 * |bs|
  {
    if bs == [] then ""
    else [HexDigit(bs[0] as int / 16), HexDigit(bs[0] as int % 16)] + HexEncode(bs[1..])
  }

  function HexDecode(s: string): (r: Option<seq<Byte>>)
    ensures r.Some? ==> |s| == 2 * |r.value|
  {
    if s == "" then Some([])
    else if |s| == 1 || HexValue(s[0]).None? || HexValue(s[1]).None? then None
    else
      match HexDecode(s[2..])
      case None => None
      case Some(tail) => Some([(16 * HexValue(s[0]).value + HexValue(s[1]).value) as Byte] + tail)
  }

  function Lower(c: char): char {
    if 'A' <= c <= 'Z' then (c as int + 32) as char else c
  }

  predicate EqIgnoreAsciiCase(a: string, b: string) {
    |a| == |b| && forall i :: 0 <= i < |a| ==> Lower(a[i]) == Lower(b[i])
  }

  /** Unicode White_Space. */
  predicate IsSpace(c: char) {
    var n := c as int;
    || 9 <= n <= 13 || n == 0x20 || n == 0x85 || n == 0xA0 || n == 0x1680
    || 0x2000 <= n <= 0x200A || n == 0x2028 || n == 0x2029 || n == 0x202F || n == 0x205F || n == 0x3000
  }

  function Trim(s: string): (t: string)
    ensures |t| <= |s|
  {
    if s != "" && IsSpace(s[0]) then Trim(s[1..])
    else if s != "" && IsSpace(s[|s| - 1]) then Trim(s[..|s| - 1])
    else s
  }

  /** Case-insensitive comparison of two scripts written in hex. */
  predicate ScriptPaysTo(scriptHex: string, expectedHex: string) {
    EqIgnoreAsciiCase(Trim(scriptHex), Trim(expectedHex))
  }

  function ParseDisplayTxid(txid: string): Result<Hash256> {
    match HexDecode(txid)
    case None => Failure(BadTxid)
    case Some(bs) => if |bs| == 32 then Success(Reversed(bs)) else Failure(BadTxid)
  }

  function DisplayTxid(wire: Hash256): string {
    HexEncode(Reversed(wire))
  }

  lemma {:induction false} DigitLetters(n: nat, c: char)
    requires n < 16
    ensures HexValue(HexDigit(n)) == Some(n) && !IsSpace(HexDigit(n))
    ensures Lower(HexDigit(n)) == Lower(c) <==> HexValue(c) == Some(n)
  {
  }

  lemma {:induction false} HexRoundTrip(bs: seq<Byte>)
    ensures HexDecode(HexEncode(bs)) == Some(bs)
    ensures forall i :: 0 <= i < |HexEncode(bs)| ==> !IsSpace(HexEncode(bs)[i])
  {
    if bs != [] {
      HexRoundTrip(bs[1..]);
      DigitLetters(bs[0] as int / 16, '0');
      DigitLetters(bs[0] as int % 16, '0');
      HexStep(bs);
    }
  }

  /** Hex text holds nothing but digits and letters. */
  lemma {:induction false} HexLetters(bs: seq<Byte>, c: char)
    requires c in HexEncode(bs)
    ensures '0' <= c <= '9' || 'a' <= c <= 'f'
  {
    if c in HexEncode(bs[1..]) {
      HexLetters(bs[1..], c);
    } else {
      assert c == HexDigit(bs[0] as int / 16) || c == HexDigit(bs[0] as int % 16);
    }
  }

  /** One byte is two digits in front of the rest. */
  lemma {:induction false} HexStep(bs: seq<Byte>)
    requires bs != []
    ensures HexEncode(bs)[2..] == HexEncode(bs[1..])
    ensures HexEncode(bs)[0] == HexDigit(bs[0] as int / 16)
    ensures HexEncode(bs)[1] == HexDigit(bs[0] as int % 16)
    ensures forall i :: 2 <= i < |HexEncode(bs)| ==> HexEncode(bs)[i] == HexEncode(bs[1..])[i - 2]
    ensures bs == [bs[0]] + bs[1..]
  {
  }

  lemma {:induction false} TrimHex(bs: seq<Byte>)
    ensures Trim(HexEncode(bs)) == HexEncode(bs)
  {
    HexRoundTrip(bs);
  }

  lemma {:induction false} TxidRoundTrip(wire: Hash256)
    ensures ParseDisplayTxid(DisplayTxid(wire)) == Success(wire)
  {
    HexRoundTrip(Reversed(wire));
    assert Reversed(Reversed(wire)) == wire;
  }

  lemma {:induction false} SameHexLetters(bs: seq<Byte>, s: string)
    ensures EqIgnoreAsciiCase(HexEncode(bs), s) <==> HexDecode(s) == Some(bs)
  {
    var h := HexEncode(bs);
    if bs != [] && |s| == |h| {
      SameHexLetters(bs[1..], s[2..]);
      HexStep(bs);
      DigitLetters(bs[0] as int / 16, s[0]);
      DigitLetters(bs[0] as int % 16, s[1]);
      EqSplit(h, s);
      DecodeStep(bs, s);
    }
  }

  lemma {:induction false} EqIgnoreSymmetric(a: string, b: string)
    ensures EqIgnoreAsciiCase(a, b) <==> EqIgnoreAsciiCase(b, a)
  {
  }

  lemma {:induction false} EqSplit(h: string, s: string)
    requires |h| == |s| >= 2
    ensures EqIgnoreAsciiCase(h, s) <==>
            Lower(h[0]) == Lower(s[0]) && Lower(h[1]) == Lower(s[1]) && EqIgnoreAsciiCase(h[2..], s[2..])
  {
    if EqIgnoreAsciiCase(h[2..], s[2..]) {
      forall i | 2 <= i < |h|
        ensures Lower(h[i]) == Lower(s[i])
      {
        assert h[2..][i - 2] == h[i] && s[2..][i - 2] == s[i];
      }
    }
  }

  lemma {:induction false} DecodeStep(bs: seq<Byte>, s: string)
    requires bs != [] && |s| >= 2
    ensures HexDecode(s) == Some(bs) <==>
            HexValue(s[0]) == Some(bs[0] as int / 16) && HexValue(s[1]) == Some(bs[0] as int % 16)
            && HexDecode(s[2..]) == Some(bs[1..])
  {
    if HexDecode(s) == Some(bs) {
      assert HexDecode(s).value[1..] == HexDecode(s[2..]).value;
      var x, y := HexValue(s[0]).value, HexValue(s[1]).value;
      assert bs[0] as int == 16 * x + y;
    } else {
      assert bs == [bs[0]] + bs[1..];
    }
  }

  /** The text comparison means equality of the scripts themselves. */
  lemma {:induction false} ScriptPaysToMeansEqual(script: seq<Byte>, expectedHex: string)
    ensures ScriptPaysTo(HexEncode(script), expectedHex) <==> HexDecode(Trim(expectedHex)) == Some(script)
  {
    TrimHex(script);
    SameHexLetters(script, Trim(expectedHex));
  }

  // ---------------------------------------------------------------- the text itself

  const HEX_DIGITS := "0123456789abcdef"

  /** The text at a position shows this byte: its high digit, then its low digit. */
  predicate Shows(s: string, at: nat, b: Byte) {
    at + 2 <= |s| && s[at] == HEX_DIGITS[b as int / 16] && s[at + 1] == HEX_DIGITS[b as int % 16]
  }

  lemma {:induction false} HexLayout(bs: seq<Byte>, k: nat)
    requires k < |bs|
    ensures Shows(HexEncode(bs), 2 * k, bs[k])
  {
    if k > 0 {
      HexLayout(bs[1..], k - 1);
    }
    HexStep(bs);
  }

  /** A displayed id shows the wire id's bytes from the last to the first. */
  lemma {:induction false} TxidLayout(wire: Hash256, k: nat)
    requires k < 32
    ensures |DisplayTxid(wire)| == 64 && Shows(DisplayTxid(wire), 2 * k, wire[31 - k])
  {
    HexLayout(Reversed(wire), k);
  }

  /** What is left begins and ends here: only white space is outside, and none at the two ends. */
  ghost predicate TrimmedAt(s: string, left: string, from: nat, until: nat) {
    && from <= until <= |s| && left == s[from..until]
    && (forall k :: 0 <= k < from ==> IsSpace(s[k])) && (forall k :: until <= k < |s| ==> IsSpace(s[k]))
    && (from < until ==> !IsSpace(s[from]) && !IsSpace(s[until - 1]))
  }

  lemma {:induction false} TrimmedBehind(s: string, left: string, from: nat, until: nat)
    requires s != "" && IsSpace(s[0]) && TrimmedAt(s[1..], left, from, until)
    ensures TrimmedAt(s, left, from + 1, until + 1)
  {
    var t := s[1..];
    assert forall k :: 1 <= k < |s| ==> s[k] == t[k - 1];
    assert s[from + 1..until + 1] == t[from..until];
  }

  lemma {:induction false} TrimmedBefore(s: string, left: string, from: nat, until: nat)
    requires s != "" && IsSpace(s[|s| - 1]) && TrimmedAt(s[..|s| - 1], left, from, until)
    ensures TrimmedAt(s, left, from, until)
  {
    var t := s[..|s| - 1];
    assert s[from..until] == t[from..until];
  }

  /** Trimming takes white space from both ends and nothing else. */
  lemma {:induction false} TrimFacts(s: string) returns (from: nat, until: nat)
    ensures TrimmedAt(s, Trim(s), from, until)
    decreases |s|
  {
    from, until := 0, |s|;
    if s != "" && IsSpace(s[0]) {
      var f, u := TrimFacts(s[1..]);
      TrimmedBehind(s, Trim(s[1..]), f, u);
      from, until := f + 1, u + 1;
    } else if s != "" && IsSpace(s[|s| - 1]) {
      from, until := TrimFacts(s[..|s| - 1]);
      TrimmedBefore(s, Trim(s[..|s| - 1]), from, until);
    }
  }

  lemma {:induction false} TrimTwice(s: string)
    ensures Trim(Trim(s)) == Trim(s)
    decreases |s|
  {
    if s != "" && IsSpace(s[0]) {
      TrimTwice(s[1..]);
    } else if s != "" && IsSpace(s[|s| - 1]) {
      TrimTwice(s[..|s| - 1]);
    }
  }

  /** The two letters of a pair are alike when case is ignored, and no others. */
  lemma {:induction false} LowerIff(a: char, b: char)
    requires a < b
    ensures Lower(a) == Lower(b) <==> 'A' <= a <= 'Z' && b as int == a as int + 32
  {
  }
}
