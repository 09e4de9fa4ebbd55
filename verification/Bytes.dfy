/** Bytes and little-endian numbers. */
module Bytes {

  newtype Byte = x: int | 0 <= x < 256

  const TWO_16 := 0x1_0000
  const TWO_32 := 0x1_0000_0000
  const TWO_64 := 0x1_0000_0000_0000_0000

  type U32 = n: int | 0 <= n < TWO_32
  type U64 = n: int | 0 <= n < TWO_64
  type I32 = n: int | -0x8000_0000 <= n < 0x8000_0000

  /** Anything held in memory is shorter than `usize` can count. */
  type Script = s: seq<Byte> | |s| < TWO_64
  type Hash256 = s: seq<Byte> | |s| == 32 witness seq(32, _ => 0)

  function Pow256(width: nat): (p: nat)
    ensures p > 0
  {
    if width == 0 then 1 else 256 * Pow256(width - 1)
  }

  lemma {:induction false} Pow256Values()
    ensures Pow256(1) == 256
    ensures Pow256(2) == TWO_16
    ensures Pow256(4) == TWO_32
    ensures Pow256(8) == TWO_64
  {
    assert Pow256(1) == 256 * Pow256(0);
    assert Pow256(2) == 256 * Pow256(1);
    assert Pow256(3) == 256 * Pow256(2);
    assert Pow256(4) == 256 * Pow256(3);
    assert Pow256(5) == 256 * Pow256(4);
    assert Pow256(6) == 256 * Pow256(5);
    assert Pow256(7) == 256 * Pow256(6);
    assert Pow256(8) == 256 * Pow256(7);
  }

  function ToLE(n: nat, width: nat): (bs: seq<Byte>)
    ensures |bs| == width
  {
    if width == 0 then [] else [(n % 256) as Byte] + ToLE(n / 256, width - 1)
  }

  function FromLE(bs: seq<Byte>): nat {
    if bs == [] then 0 else bs[0] as int + 256 * FromLE(bs[1..])
  }

  lemma {:induction false} FromToLE(n: nat, width: nat)
    requires n < Pow256(width)
    ensures FromLE(ToLE(n, width)) == n
  {
    if width > 0 {
      assert n / 256 < Pow256(width - 1);
      FromToLE(n / 256, width - 1);
      assert ToLE(n, width)[1..] == ToLE(n / 256, width - 1);
    }
  }

  lemma {:induction false} ToFromLE(bs: seq<Byte>)
    ensures FromLE(bs) < Pow256(|bs|)
    ensures ToLE(FromLE(bs), |bs|) == bs
  {
    if bs != [] {
      ToFromLE(bs[1..]);
      assert FromLE(bs) % 256 == bs[0] as int;
      assert FromLE(bs) / 256 == FromLE(bs[1..]);
    }
  }

  lemma {:induction false} Assoc(a: seq<Byte>, b: seq<Byte>, c: seq<Byte>)
    ensures (a + b) + c == a + (b + c)
  {
  }

  function Reversed<T>(s: seq<T>): (r: seq<T>)
    ensures |r| == |s|
    ensures forall k :: 0 <= k < |s| ==> r[k] == s[|s| - 1 - k]
  {
    seq(|s|, i requires 0 <= i < |s| => s[|s| - 1 - i])
  }

  /** Two's complement, as a signed 32-bit value is cast to unsigned. */
  function AsU32(v: I32): U32 {
    if v < 0 then v + TWO_32 else v
  }

  function AsI32(u: U32): I32 {
    if u < 0x8000_0000 then u else u - TWO_32
  }

  // ---------------------------------------------------------------- numbers at a position

  /** Two bytes from a position on as a number, the less significant one first. */
  function U16At(b: seq<Byte>, at: nat): nat
    requires at + 2 <= |b|
  {
    b[at] as int + 0x100 * (b[at + 1] as int)
  }

  function U32At(b: seq<Byte>, at: nat): nat
    requires at + 4 <= |b|
  {
    U16At(b, at) + 0x1_0000 * U16At(b, at + 2)
  }

  function U64At(b: seq<Byte>, at: nat): nat
    requires at + 8 <= |b|
  {
    U32At(b, at) + 0x1_0000_0000 * U32At(b, at + 4)
  }

  lemma {:induction false} FromTwo(b: seq<Byte>, rest: seq<Byte>)
    requires |b| == 2
    ensures FromLE(b + rest) == U16At(b, 0) + 0x1_0000 * FromLE(rest)
  {
    assert (b + rest)[1..] == [b[1]] + rest && ([b[1]] + rest)[1..] == rest;
  }

  lemma {:induction false} FromTwoAt(b: seq<Byte>, at: nat)
    requires at + 2 <= |b|
    ensures FromLE(b[at..at + 2]) == U16At(b, at)
  {
    FromTwo(b[at..at + 2], []);
    assert b[at..at + 2] + [] == b[at..at + 2];
  }

  lemma {:induction false} FromFourAt(b: seq<Byte>, at: nat)
    requires at + 4 <= |b|
    ensures FromLE(b[at..at + 4]) == U32At(b, at)
  {
    FromTwo(b[at..at + 2], b[at + 2..at + 4]);
    FromTwoAt(b, at + 2);
    assert b[at..at + 2] + b[at + 2..at + 4] == b[at..at + 4];
  }

  lemma {:induction false} FromEightAt(b: seq<Byte>, at: nat)
    requires at + 8 <= |b|
    ensures FromLE(b[at..at + 8]) == U64At(b, at)
  {
    FromTwo(b[at..at + 2], b[at + 2..at + 8]);
    FromTwo(b[at + 2..at + 4], b[at + 4..at + 8]);
    FromFourAt(b, at + 4);
    assert b[at..at + 2] + b[at + 2..at + 8] == b[at..at + 8];
    assert b[at + 2..at + 4] + b[at + 4..at + 8] == b[at + 2..at + 8];
  }

  /** These bytes stand at that position. */
  predicate At(e: seq<Byte>, at: nat, x: seq<Byte>)
    decreases |x|
  {
    x == [] || (at < |e| && e[at] == x[0] && At(e, at + 1, x[1..]))
  }

  lemma {:induction false} AtSlice(e: seq<Byte>, at: nat, x: seq<Byte>)
    requires at <= |e|
    ensures At(e, at, x) <==> at + |x| <= |e| && e[at..at + |x|] == x
    decreases |x|
  {
    if x != [] && at < |e| {
      AtSlice(e, at + 1, x[1..]);
      if at + |x| <= |e| {
        assert e[at..at + |x|] == [e[at]] + e[at + 1..at + |x|];
        assert x == [x[0]] + x[1..];
      }
    }
  }

  lemma {:induction false} AtBoth(e: seq<Byte>, at: nat, x: seq<Byte>, y: seq<Byte>)
    ensures At(e, at, x + y) <==> At(e, at, x) && At(e, at + |x|, y)
    decreases |x|
  {
    if x == [] {
      assert x + y == y;
    } else {
      AtBoth(e, at + 1, x[1..], y);
      assert (x + y)[1..] == x[1..] + y;
    }
  }

  /** Little-endian bytes stand where the number is read, least significant byte first, and nowhere else. */
  lemma {:induction false} AtNumber(e: seq<Byte>, at: nat, n: nat)
    requires at <= |e|
    ensures n < TWO_16 ==> (At(e, at, ToLE(n, 2)) <==> at + 2 <= |e| && U16At(e, at) == n)
    ensures n < TWO_32 ==> (At(e, at, ToLE(n, 4)) <==> at + 4 <= |e| && U32At(e, at) == n)
    ensures n < TWO_64 ==> (At(e, at, ToLE(n, 8)) <==> at + 8 <= |e| && U64At(e, at) == n)
  {
    Pow256Values();
    if n < TWO_16 && at + 2 <= |e| {
      FromTwoAt(e, at);
      NumberIff(e[at..at + 2], n);
    }
    if n < TWO_32 && at + 4 <= |e| {
      FromFourAt(e, at);
      NumberIff(e[at..at + 4], n);
    }
    if n < TWO_64 && at + 8 <= |e| {
      FromEightAt(e, at);
      NumberIff(e[at..at + 8], n);
    }
    AtSlice(e, at, ToLE(n, 2));
    AtSlice(e, at, ToLE(n, 4));
    AtSlice(e, at, ToLE(n, 8));
  }

  lemma {:induction false} NumberIff(bs: seq<Byte>, n: nat)
    requires n < Pow256(|bs|)
    ensures bs == ToLE(n, |bs|) <==> FromLE(bs) == n
  {
    FromToLE(n, |bs|);
    ToFromLE(bs);
  }
}
