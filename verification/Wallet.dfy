/** Coins, keys and addresses, with the cryptography as parameters bound only by its laws. */
module Wallet {
  import opened Bytes
  import opened Outcome
  import opened ScriptCode

  /** Change up to this amount is left to the miner. */
  const DUST_CHANGE_SATS := 546

  const TWO_63 := 0x8000_0000_0000_0000

  type I64 = n: int | -TWO_63 <= n < TWO_63
  /** Text that may hold a script in hex, two characters a byte. */
  type Text = s: string | |s| < 2 * TWO_64
  type DerSignature = s: seq<Byte> | 8 <= |s| <= 72 witness seq(8, _ => 0)
  type CompressedKey = s: seq<Byte> | |s| == 33 witness seq(33, _ => 0)
  type KeyHash = s: seq<Byte> | |s| == 20 witness seq(20, _ => 0)

  /** A spendable output as the wallet knows it. */
  datatype Utxo = Utxo(
    txid: string, vout: U32, valueSats: I64, height: U32, address: string, scriptHex: Text)

  datatype Payment = Payment(address: string, sats: I64)

  function Total(utxos: seq<Utxo>): int {
    if utxos == [] then 0 else utxos[0].valueSats + Total(utxos[1..])
  }

  function TotalPaid(outputs: seq<Payment>): int {
    if outputs == [] then 0 else outputs[0].sats + TotalPaid(outputs[1..])
  }

  lemma {:induction false} TotalAppend(a: seq<Utxo>, b: seq<Utxo>)
    ensures Total(a + b) == Total(a) + Total(b)
  {
    if a == [] {
      assert a + b == b;
    } else {
      TotalAppend(a[1..], b);
      assert (a + b)[1..] == a[1..] + b;
    }
  }

  function SumBy(value: Utxo -> int, utxos: seq<Utxo>): int {
    if utxos == [] then 0 else value(utxos[0]) + SumBy(value, utxos[1..])
  }

  lemma {:induction false} SumByAppend(value: Utxo -> int, a: seq<Utxo>, b: seq<Utxo>)
    ensures SumBy(value, a + b) == SumBy(value, a) + SumBy(value, b)
  {
    if a == [] {
      assert a + b == b;
    } else {
      SumByAppend(value, a[1..], b);
      assert (a + b)[1..] == a[1..] + b;
    }
  }

  function WithoutAt(utxos: seq<Utxo>, i: nat): seq<Utxo>
    requires i < |utxos|
  {
    utxos[..i] + utxos[i + 1..]
  }

  lemma {:induction false} WithoutAtFacts(value: Utxo -> int, utxos: seq<Utxo>, i: nat)
    requires i < |utxos|
    ensures SumBy(value, utxos) == value(utxos[i]) + SumBy(value, WithoutAt(utxos, i))
    ensures multiset(utxos) == multiset{utxos[i]} + multiset(WithoutAt(utxos, i))
    ensures forall u :: u in WithoutAt(utxos, i) ==> u in utxos
  {
    var front, back := utxos[..i], utxos[i + 1..];
    assert utxos == front + ([utxos[i]] + back);
    SumByAppend(value, front, back);
    SumByAppend(value, front, [utxos[i]] + back);
    SumByAppend(value, [utxos[i]], back);
    assert SumBy(value, [utxos[i]]) == value(utxos[i]) + SumBy(value, []);
  }

  lemma {:induction false} PartWithout(part: seq<Utxo>, whole: seq<Utxo>, i: nat)
    requires i < |whole| && part != [] && whole[i] == part[0] && multiset(part) <= multiset(whole)
    ensures multiset(part[1..]) <= multiset(WithoutAt(whole, i))
  {
    WithoutAtFacts(_ => 0, part, 0);
    WithoutAtFacts(_ => 0, whole, i);
    assert WithoutAt(part, 0) == part[1..];
    assert multiset(part[1..]) == multiset(part) - multiset{part[0]};
    assert multiset(WithoutAt(whole, i)) == multiset(whole) - multiset{part[0]};
  }

  /** Some of the coins, in any order, are together worth no more than all of them. */
  lemma {:induction false} PartSum(value: Utxo -> int, part: seq<Utxo>, whole: seq<Utxo>)
    requires multiset(part) <= multiset(whole) && forall u :: u in whole ==> value(u) >= 0
    ensures 0 <= SumBy(value, part) <= SumBy(value, whole) && |part| <= |whole|
    decreases |whole|
  {
    if part == [] {
      NonNegativeSum(value, whole);
    } else {
      assert part[0] in multiset(whole);
      var i :| 0 <= i < |whole| && whole[i] == part[0];
      WithoutAtFacts(value, whole, i);
      PartWithout(part, whole, i);
      PartSum(value, part[1..], WithoutAt(whole, i));
    }
  }

  lemma {:induction false} NonNegativeSum(value: Utxo -> int, utxos: seq<Utxo>)
    requires forall u :: u in utxos ==> value(u) >= 0
    ensures SumBy(value, utxos) >= 0
  {
    if utxos != [] {
      NonNegativeSum(value, utxos[1..]);
    }
  }

  lemma {:induction false} TotalIsSum(utxos: seq<Utxo>)
    ensures Total(utxos) == SumBy((u: Utxo) => u.valueSats, utxos)
  {
    if utxos != [] {
      TotalIsSum(utxos[1..]);
    }
  }

  datatype HdChain = External | Internal

  /** Discovery examines this index too; the search for signing keys stops before it. */
  const GAP_SCAN_MAX_INDEX: nat := 501

  datatype Crypto = Crypto(
    sha256d: seq<Byte> -> Hash256,
    hash160: seq<Byte> -> KeyHash,
    validSecret: seq<Byte> -> bool,
    pubkeyOf: seq<Byte> -> CompressedKey,
    validPubkey: seq<Byte> -> bool,
    sign: (seq<Byte>, Hash256) -> DerSignature,
    verify: (Hash256, seq<Byte>, seq<Byte>) -> bool,
    encodeAddress: KeyHash -> string,
    decodeAddress: string -> Option<seq<Byte>>)

  /** Verification accepts signing (whose S is low, so the DER form has at most 71 bytes); decoding undoes encoding. */
  ghost predicate Lawful(c: Crypto) {
    && (forall sk: seq<Byte> :: c.validSecret(sk) ==> c.validPubkey(c.pubkeyOf(sk)))
    && (forall sk: seq<Byte>, m: Hash256 :: c.validSecret(sk) ==>
          c.verify(m, c.sign(sk, m), c.pubkeyOf(sk)) && |c.sign(sk, m)| <= 71)
    && (forall h: KeyHash :: c.decodeAddress(c.encodeAddress(h)) == Some(h))
  }

  /** One seed: which derivation scheme it uses and the secret at each position. */
  datatype Seed = Seed(coreHd: bool, secretAt: (HdChain, nat) -> seq<Byte>)

  ghost predicate ValidSeed(c: Crypto, seed: Seed) {
    forall chain: HdChain, index: nat :: c.validSecret(seed.secretAt(chain, index))
  }

  function AddressToScript(c: Crypto, address: string): Result<Script> {
    match c.decodeAddress(address)
    case None => Failure(BadAddress)
    case Some(h) => if |h| != 20 then Failure(BadAddress) else Success(P2pkhScript(h))
  }

  function AddressOf(c: Crypto, pubkey: seq<Byte>): string {
    c.encodeAddress(c.hash160(pubkey))
  }
}
