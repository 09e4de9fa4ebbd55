/** The transaction wire format: Bitcoin's pre-segwit layout with nTime after the version. */
module Wire {
  import opened Bytes

  datatype OutPoint = OutPoint(txid: Hash256, vout: U32)
  datatype TxIn = TxIn(prevout: OutPoint, scriptSig: Script, sequence: U32)
  datatype TxOut = TxOut(value: U64, scriptPubKey: Script)

  type Inputs = s: seq<TxIn> | |s| < TWO_64
  type Outputs = s: seq<TxOut> | |s| < TWO_64

  datatype Tx = Tx(version: I32, nTime: U32, inputs: Inputs, outputs: Outputs, lockTime: U32)

  /** The decoder reads each vector through a window of this many bytes. */
  const MAX_VEC_SIZE := 4_000_000

  datatype Parsed<+T> = Err | Ok(value: T, rest: seq<Byte>) {
    predicate IsFailure() { Err? }
    function PropagateFailure<U>(): Parsed<U>
      requires Err?
    {
      Err
    }
    function Extract(): (T, seq<Byte>)
      requires Ok?
    {
      (value, rest)
    }
  }

  // ---------------------------------------------------------------- encoding

  function CompactSize(n: U64): (r: seq<Byte>)
    ensures |r| == if n < 0xFD then 1 else if n < TWO_16 then 3 else if n < TWO_32 then 5 else 9
  {
    if n < 0xFD then [n as Byte]
    else if n < TWO_16 then [0xFD] + ToLE(n, 2)
    else if n < TWO_32 then [0xFE] + ToLE(n, 4)
    else [0xFF] + ToLE(n, 8)
  }

  function EncodeScript(s: Script): seq<Byte> {
    CompactSize(|s|) + s
  }

  function EncodeTxIn(i: TxIn): seq<Byte> {
    i.prevout.txid + (ToLE(i.prevout.vout, 4) + (EncodeScript(i.scriptSig) + ToLE(i.sequence, 4)))
  }

  function EncodeTxOut(o: TxOut): seq<Byte> {
    ToLE(o.value, 8) + EncodeScript(o.scriptPubKey)
  }

  function EncodeItems<T>(enc: T -> seq<Byte>, xs: seq<T>): seq<Byte> {
    if xs == [] then [] else enc(xs[0]) + EncodeItems(enc, xs[1..])
  }

  function EncodeVec<T>(enc: T -> seq<Byte>, xs: seq<T>): seq<Byte>
    requires |xs| < TWO_64
  {
    CompactSize(|xs|) + EncodeItems(enc, xs)
  }

  function EncodeInputs(xs: Inputs): seq<Byte> { EncodeVec(EncodeTxIn, xs) }

  function EncodeOutputs(xs: Outputs): seq<Byte> { EncodeVec(EncodeTxOut, xs) }

  function EncodeTx(tx: Tx): seq<Byte> {
    ToLE(AsU32(tx.version), 4) + EncodeBody(tx)
  }

  /** Everything after the version. */
  function EncodeBody(tx: Tx): seq<Byte> {
    ToLE(tx.nTime, 4) + (EncodeInputs(tx.inputs) + (EncodeOutputs(tx.outputs) + ToLE(tx.lockTime, 4)))
  }

  /** The serializer: five appends to one growing buffer. */
  method SerializeVeriumTx(tx: Tx) returns (v: seq<Byte>)
    ensures v == EncodeTx(tx)
  {
    v := [];
    v := v + ToLE(AsU32(tx.version), 4);
    v := v + ToLE(tx.nTime, 4);
    v := v + EncodeInputs(tx.inputs);
    v := v + EncodeOutputs(tx.outputs);
    v := v + ToLE(tx.lockTime, 4);
  }

  // ---------------------------------------------------------------- decoding

  function TakeBytes(n: nat, b: seq<Byte>): Parsed<seq<Byte>> {
    if |b| < n then Err else Ok(b[..n], b[n..])
  }

  function DecodeU16(b: seq<Byte>): (r: Parsed<U32>)
    ensures r.Ok? ==> r.value < TWO_16
  {
    if |b| < 2 then Err
    else
      ToFromLE(b[..2]); Pow256Values();
      Ok(FromLE(b[..2]), b[2..])
  }

  function DecodeU32(b: seq<Byte>): Parsed<U32> {
    if |b| < 4 then Err
    else
      ToFromLE(b[..4]); Pow256Values();
      Ok(FromLE(b[..4]), b[4..])
  }

  function DecodeU64(b: seq<Byte>): Parsed<U64> {
    if |b| < 8 then Err
    else
      ToFromLE(b[..8]); Pow256Values();
      Ok(FromLE(b[..8]), b[8..])
  }

  /** A count in its shortest form; a longer form of the same number is refused. */
  function DecodeCompactSize(b: seq<Byte>): Parsed<U64> {
    if b == [] then Err
    else if b[0] == 0xFF then
      var (n, rest) :- DecodeU64(b[1..]);
      if n < TWO_32 then Err else Ok(n, rest)
    else if b[0] == 0xFE then
      var (n, rest) :- DecodeU32(b[1..]);
      if n < TWO_16 then Err else Ok(n, rest)
    else if b[0] == 0xFD then
      var (n, rest) :- DecodeU16(b[1..]);
      if n < 0xFD then Err else Ok(n, rest)
    else Ok(b[0] as int, b[1..])
  }

  function DecodeScript(b: seq<Byte>): Parsed<Script> {
    var (n, rest) :- DecodeCompactSize(b);
    TakeBytes(n, rest)
  }

  function DecodeTxIn(b: seq<Byte>): Parsed<TxIn> {
    var (txid, b1) :- TakeBytes(32, b);
    var (vout, b2) :- DecodeU32(b1);
    var (scriptSig, b3) :- DecodeScript(b2);
    var (sequence, b4) :- DecodeU32(b3);
    Ok(TxIn(OutPoint(txid, vout), scriptSig, sequence), b4)
  }

  function DecodeTxOut(b: seq<Byte>): Parsed<TxOut> {
    var (value, b1) :- DecodeU64(b);
    var (script, b2) :- DecodeScript(b1);
    Ok(TxOut(value, script), b2)
  }

  function DecodeItems<T>(dec: seq<Byte> -> Parsed<T>, n: nat, b: seq<Byte>): (r: Parsed<seq<T>>)
    ensures r.Ok? ==> |r.value| == n
  {
    if n == 0 then Ok([], b)
    else
      var (x, b1) :- dec(b);
      var (xs, b2) :- DecodeItems(dec, n - 1, b1);
      Ok([x] + xs, b2)
  }

  function DecodeVec<T>(dec: seq<Byte> -> Parsed<T>, b: seq<Byte>): (r: Parsed<seq<T>>)
    ensures r.Ok? ==> |r.value| < TWO_64
  {
    var window := if |b| < MAX_VEC_SIZE then |b| else MAX_VEC_SIZE;
    var (n, b1) :- DecodeCompactSize(b[..window]);
    var (xs, b2) :- DecodeItems(dec, n, b1);
    Ok(xs, b2 + b[window..])
  }

  function DecodeInputs(b: seq<Byte>): Parsed<Inputs> { DecodeVec(DecodeTxIn, b) }

  function DecodeOutputs(b: seq<Byte>): Parsed<Outputs> { DecodeVec(DecodeTxOut, b) }

  /** Field by field; bytes after the lock time are left in `rest` and ignored by callers. */
  function DecodeTx(b: seq<Byte>): Parsed<Tx> {
    var (version, b1) :- DecodeU32(b);
    DecodeBody(AsI32(version), b1)
  }

  function DecodeBody(version: I32, b: seq<Byte>): Parsed<Tx> {
    var (nTime, b1) :- DecodeU32(b);
    var (inputs, b2) :- DecodeInputs(b1);
    var (outputs, b3) :- DecodeOutputs(b2);
    var (lockTime, b4) :- DecodeU32(b3);
    Ok(Tx(version, nTime, inputs, outputs, lockTime), b4)
  }

  // ---------------------------------------------------------------- laws

  /** A decoder that undoes an encoder on every continuation, and accepts nothing else. */
  ghost predicate IsCodec<T(!new)>(enc: T -> seq<Byte>, dec: seq<Byte> -> Parsed<T>) {
    && (forall x: T, rest: seq<Byte> :: dec(enc(x) + rest) == Ok(x, rest))
    && (forall b: seq<Byte> :: dec(b).Ok? ==> b == enc(dec(b).value) + dec(b).rest)
  }

  lemma {:induction false} U16RoundTrip(n: U32, rest: seq<Byte>)
    requires n < TWO_16
    ensures DecodeU16(ToLE(n, 2) + rest) == Ok(n, rest)
  {
    Pow256Values();
    FromToLE(n, 2);
    assert (ToLE(n, 2) + rest)[..2] == ToLE(n, 2);
  }

  lemma {:induction false} U16Canonical(b: seq<Byte>)
    requires DecodeU16(b).Ok?
    ensures b == ToLE(DecodeU16(b).value, 2) + DecodeU16(b).rest
  {
    ToFromLE(b[..2]);
  }

  lemma {:induction false} U32RoundTrip(n: U32, rest: seq<Byte>)
    ensures DecodeU32(ToLE(n, 4) + rest) == Ok(n, rest)
  {
    Pow256Values();
    FromToLE(n, 4);
    assert (ToLE(n, 4) + rest)[..4] == ToLE(n, 4);
  }

  lemma {:induction false} U32Canonical(b: seq<Byte>)
    requires DecodeU32(b).Ok?
    ensures b == ToLE(DecodeU32(b).value, 4) + DecodeU32(b).rest
  {
    ToFromLE(b[..4]);
  }

  lemma {:induction false} U64RoundTrip(n: U64, rest: seq<Byte>)
    ensures DecodeU64(ToLE(n, 8) + rest) == Ok(n, rest)
  {
    Pow256Values();
    FromToLE(n, 8);
    assert (ToLE(n, 8) + rest)[..8] == ToLE(n, 8);
  }

  lemma {:induction false} U64Canonical(b: seq<Byte>)
    requires DecodeU64(b).Ok?
    ensures b == ToLE(DecodeU64(b).value, 8) + DecodeU64(b).rest
  {
    ToFromLE(b[..8]);
  }

  lemma {:induction false} Tagged(tag: Byte, x: seq<Byte>, rest: seq<Byte>)
    ensures var b := ([tag] + x) + rest; b[0] == tag && b[1..] == x + rest
  {
    Assoc([tag], x, rest);
  }

  lemma {:induction false} CompactSizeRoundTrip(n: U64, rest: seq<Byte>)
    ensures DecodeCompactSize(CompactSize(n) + rest) == Ok(n, rest)
  {
    if n < 0xFD {
      assert (CompactSize(n) + rest)[1..] == rest;
    } else if n < TWO_16 {
      Tagged(0xFD, ToLE(n, 2), rest);
      U16RoundTrip(n, rest);
    } else if n < TWO_32 {
      Tagged(0xFE, ToLE(n, 4), rest);
      U32RoundTrip(n, rest);
    } else {
      Tagged(0xFF, ToLE(n, 8), rest);
      U64RoundTrip(n, rest);
    }
  }

  lemma {:induction false} CompactSizeCanonical(b: seq<Byte>)
    requires DecodeCompactSize(b).Ok?
    ensures b == CompactSize(DecodeCompactSize(b).value) + DecodeCompactSize(b).rest
  {
    if b[0] == 0xFF {
      U64Canonical(b[1..]);
    } else if b[0] == 0xFE {
      U32Canonical(b[1..]);
    } else if b[0] == 0xFD {
      U16Canonical(b[1..]);
    }
  }

  lemma {:induction false} ScriptRoundTrip(s: Script, rest: seq<Byte>)
    ensures DecodeScript(EncodeScript(s) + rest) == Ok(s, rest)
  {
    assert EncodeScript(s) + rest == CompactSize(|s|) + (s + rest);
    CompactSizeRoundTrip(|s|, s + rest);
  }

  lemma {:induction false} ScriptCanonical(b: seq<Byte>)
    requires DecodeScript(b).Ok?
    ensures b == EncodeScript(DecodeScript(b).value) + DecodeScript(b).rest
  {
    CompactSizeCanonical(b);
  }

  lemma {:induction false} TxInCodec()
    ensures IsCodec(EncodeTxIn, DecodeTxIn)
  {
    forall i: TxIn, rest: seq<Byte>
      ensures DecodeTxIn(EncodeTxIn(i) + rest) == Ok(i, rest)
    {
      var b3 := ToLE(i.sequence, 4) + rest;
      var b2 := EncodeScript(i.scriptSig) + b3;
      var b1 := ToLE(i.prevout.vout, 4) + b2;
      assert EncodeTxIn(i) + rest == i.prevout.txid + b1;
      U32RoundTrip(i.prevout.vout, b2);
      ScriptRoundTrip(i.scriptSig, b3);
      U32RoundTrip(i.sequence, rest);
    }
    forall b: seq<Byte> | DecodeTxIn(b).Ok?
      ensures b == EncodeTxIn(DecodeTxIn(b).value) + DecodeTxIn(b).rest
    {
      var b1 := b[32..];
      var b2 := DecodeU32(b1).rest;
      var b3 := DecodeScript(b2).rest;
      U32Canonical(b1);
      ScriptCanonical(b2);
      U32Canonical(b3);
    }
  }

  lemma {:induction false} TxOutCodec()
    ensures IsCodec(EncodeTxOut, DecodeTxOut)
  {
    forall o: TxOut, rest: seq<Byte>
      ensures DecodeTxOut(EncodeTxOut(o) + rest) == Ok(o, rest)
    {
      var b1 := EncodeScript(o.scriptPubKey) + rest;
      assert EncodeTxOut(o) + rest == ToLE(o.value, 8) + b1;
      U64RoundTrip(o.value, b1);
      ScriptRoundTrip(o.scriptPubKey, rest);
    }
    forall b: seq<Byte> | DecodeTxOut(b).Ok?
      ensures b == EncodeTxOut(DecodeTxOut(b).value) + DecodeTxOut(b).rest
    {
      U64Canonical(b);
      ScriptCanonical(DecodeU64(b).rest);
    }
  }

  lemma {:induction false} ItemsRoundTrip<T(!new)>(
    enc: T -> seq<Byte>, dec: seq<Byte> -> Parsed<T>, xs: seq<T>, rest: seq<Byte>)
    requires IsCodec(enc, dec)
    ensures DecodeItems(dec, |xs|, EncodeItems(enc, xs) + rest) == Ok(xs, rest)
  {
    if xs == [] {
      assert EncodeItems(enc, xs) + rest == rest;
    } else {
      var tail := EncodeItems(enc, xs[1..]) + rest;
      Assoc(enc(xs[0]), EncodeItems(enc, xs[1..]), rest);
      assert dec(enc(xs[0]) + tail) == Ok(xs[0], tail);
      ItemsRoundTrip(enc, dec, xs[1..], rest);
      assert xs == [xs[0]] + xs[1..];
    }
  }

  lemma {:induction false} ItemsCanonical<T(!new)>(
    enc: T -> seq<Byte>, dec: seq<Byte> -> Parsed<T>, n: nat, b: seq<Byte>)
    requires IsCodec(enc, dec)
    requires DecodeItems(dec, n, b).Ok?
    ensures b == EncodeItems(enc, DecodeItems(dec, n, b).value) + DecodeItems(dec, n, b).rest
  {
    if n > 0 {
      var first := dec(b);
      ItemsCanonical(enc, dec, n - 1, first.rest);
      var xs := DecodeItems(dec, n, b).value;
      assert xs[1..] == DecodeItems(dec, n - 1, first.rest).value;
    }
  }

  /** Parsing a count and its items ignoring the window. */
  function DecodeUncapped<T>(dec: seq<Byte> -> Parsed<T>, b: seq<Byte>): Parsed<seq<T>> {
    var (n, b1) :- DecodeCompactSize(b);
    DecodeItems(dec, n, b1)
  }

  lemma {:induction false} UncappedRoundTrip<T(!new)>(
    enc: T -> seq<Byte>, dec: seq<Byte> -> Parsed<T>, xs: seq<T>, rest: seq<Byte>)
    requires IsCodec(enc, dec) && |xs| < TWO_64
    ensures DecodeUncapped(dec, EncodeVec(enc, xs) + rest) == Ok(xs, rest)
  {
    Assoc(CompactSize(|xs|), EncodeItems(enc, xs), rest);
    CompactSizeRoundTrip(|xs|, EncodeItems(enc, xs) + rest);
    ItemsRoundTrip(enc, dec, xs, rest);
  }

  lemma {:induction false} VecCanonical<T(!new)>(enc: T -> seq<Byte>, dec: seq<Byte> -> Parsed<T>, b: seq<Byte>)
    requires IsCodec(enc, dec)
    requires DecodeVec(dec, b).Ok?
    ensures b == EncodeVec(enc, DecodeVec(dec, b).value) + DecodeVec(dec, b).rest
    ensures |EncodeVec(enc, DecodeVec(dec, b).value)| <= MAX_VEC_SIZE
  {
    var window := if |b| < MAX_VEC_SIZE then |b| else MAX_VEC_SIZE;
    var w := b[..window];
    CompactSizeCanonical(w);
    var n := DecodeCompactSize(w);
    ItemsCanonical(enc, dec, n.value, n.rest);
    var xs := DecodeItems(dec, n.value, n.rest);
    assert w == EncodeVec(enc, xs.value) + xs.rest;
    assert b == w + b[window..];
  }

  /** The window is invisible exactly when the encoded vector fits in it; otherwise decoding fails. */
  lemma {:induction false} VecRoundTrip<T(!new)>(
    enc: T -> seq<Byte>, dec: seq<Byte> -> Parsed<T>, xs: seq<T>, rest: seq<Byte>)
    requires IsCodec(enc, dec) && |xs| < TWO_64
    ensures DecodeVec(dec, EncodeVec(enc, xs) + rest) ==
            if |EncodeVec(enc, xs)| <= MAX_VEC_SIZE then Ok(xs, rest) else Err
  {
    if |EncodeVec(enc, xs)| <= MAX_VEC_SIZE {
      VecFits(enc, dec, xs, rest);
    } else if DecodeVec(dec, EncodeVec(enc, xs) + rest).Ok? {
      var b := EncodeVec(enc, xs) + rest;
      VecCanonical(enc, dec, b);
      UncappedRoundTrip(enc, dec, xs, rest);
      UncappedRoundTrip(enc, dec, DecodeVec(dec, b).value, DecodeVec(dec, b).rest);
      assert false;
    }
  }

  lemma {:induction false} VecFits<T(!new)>(
    enc: T -> seq<Byte>, dec: seq<Byte> -> Parsed<T>, xs: seq<T>, rest: seq<Byte>)
    requires IsCodec(enc, dec) && |xs| < TWO_64
    requires |EncodeVec(enc, xs)| <= MAX_VEC_SIZE
    ensures DecodeVec(dec, EncodeVec(enc, xs) + rest) == Ok(xs, rest)
  {
    var e := EncodeVec(enc, xs);
    var window := if |e + rest| < MAX_VEC_SIZE then |e + rest| else MAX_VEC_SIZE;
    var k := window - |e|;
    assert (e + rest)[..window] == e + rest[..k];
    assert (e + rest)[window..] == rest[k..];
    UncappedRoundTrip(enc, dec, xs, rest[..k]);
    assert rest == rest[..k] + rest[k..];
  }

  // The two vectors of a transaction.

  lemma {:induction false} InputsRoundTrip(xs: Inputs, rest: seq<Byte>)
    ensures DecodeInputs(EncodeInputs(xs) + rest) ==
            if |EncodeInputs(xs)| <= MAX_VEC_SIZE then Ok(xs, rest) else Err
  {
    TxInCodec();
    VecRoundTrip(EncodeTxIn, DecodeTxIn, xs, rest);
  }

  lemma {:induction false} OutputsRoundTrip(xs: Outputs, rest: seq<Byte>)
    ensures DecodeOutputs(EncodeOutputs(xs) + rest) ==
            if |EncodeOutputs(xs)| <= MAX_VEC_SIZE then Ok(xs, rest) else Err
  {
    TxOutCodec();
    VecRoundTrip(EncodeTxOut, DecodeTxOut, xs, rest);
  }

  lemma {:induction false} InputsCanonical(b: seq<Byte>)
    requires DecodeInputs(b).Ok?
    ensures b == EncodeInputs(DecodeInputs(b).value) + DecodeInputs(b).rest
    ensures |EncodeInputs(DecodeInputs(b).value)| <= MAX_VEC_SIZE
  {
    TxInCodec();
    VecCanonical(EncodeTxIn, DecodeTxIn, b);
  }

  lemma {:induction false} OutputsCanonical(b: seq<Byte>)
    requires DecodeOutputs(b).Ok?
    ensures b == EncodeOutputs(DecodeOutputs(b).value) + DecodeOutputs(b).rest
    ensures |EncodeOutputs(DecodeOutputs(b).value)| <= MAX_VEC_SIZE
  {
    TxOutCodec();
    VecCanonical(EncodeTxOut, DecodeTxOut, b);
  }

  lemma {:induction false} InputsPrefixFree(xs: Inputs, ys: Inputs, r1: seq<Byte>, r2: seq<Byte>)
    requires EncodeInputs(xs) + r1 == EncodeInputs(ys) + r2
    ensures xs == ys && r1 == r2
  {
    TxInCodec();
    UncappedRoundTrip(EncodeTxIn, DecodeTxIn, xs, r1);
    UncappedRoundTrip(EncodeTxIn, DecodeTxIn, ys, r2);
  }

  lemma {:induction false} OutputsPrefixFree(xs: Outputs, ys: Outputs, r1: seq<Byte>, r2: seq<Byte>)
    requires EncodeOutputs(xs) + r1 == EncodeOutputs(ys) + r2
    ensures xs == ys && r1 == r2
  {
    TxOutCodec();
    UncappedRoundTrip(EncodeTxOut, DecodeTxOut, xs, r1);
    UncappedRoundTrip(EncodeTxOut, DecodeTxOut, ys, r2);
  }

  /** Both vectors fit the decoder's window. */
  ghost predicate FitsWindow(tx: Tx) {
    && |EncodeInputs(tx.inputs)| <= MAX_VEC_SIZE
    && |EncodeOutputs(tx.outputs)| <= MAX_VEC_SIZE
  }

  /** Decoding undoes encoding in front of any bytes, if and only if both vectors fit the window. */
  lemma {:induction false} TxRoundTrip(tx: Tx, rest: seq<Byte>)
    ensures DecodeTx(EncodeTx(tx) + rest) == if FitsWindow(tx) then Ok(tx, rest) else Err
  {
    Assoc(ToLE(AsU32(tx.version), 4), EncodeBody(tx), rest);
    VersionRoundTrip(AsU32(tx.version), EncodeBody(tx) + rest);
    assert AsI32(AsU32(tx.version)) == tx.version;
    BodyRoundTrip(tx, rest);
  }

  lemma {:induction false} VersionRoundTrip(version: U32, body: seq<Byte>)
    ensures DecodeTx(ToLE(version, 4) + body) == DecodeBody(AsI32(version), body)
  {
    U32RoundTrip(version, body);
  }

  /** The body's encoding, associated to the right. */
  lemma {:induction false} BodyParts(tx: Tx, rest: seq<Byte>)
    ensures EncodeBody(tx) + rest ==
            ToLE(tx.nTime, 4) + (EncodeInputs(tx.inputs) +
            (EncodeOutputs(tx.outputs) + (ToLE(tx.lockTime, 4) + rest)))
  {
    var c := ToLE(tx.lockTime, 4);
    Assoc(ToLE(tx.nTime, 4), EncodeInputs(tx.inputs) + (EncodeOutputs(tx.outputs) + c), rest);
    Assoc(EncodeInputs(tx.inputs), EncodeOutputs(tx.outputs) + c, rest);
    Assoc(EncodeOutputs(tx.outputs), c, rest);
  }

  lemma {:induction false} BodyRoundTrip(tx: Tx, rest: seq<Byte>)
    ensures DecodeBody(tx.version, EncodeBody(tx) + rest) == if FitsWindow(tx) then Ok(tx, rest) else Err
  {
    BodyParts(tx, rest);
    var b3 := ToLE(tx.lockTime, 4) + rest;
    var b2 := EncodeOutputs(tx.outputs) + b3;
    U32RoundTrip(tx.nTime, EncodeInputs(tx.inputs) + b2);
    InputsRoundTrip(tx.inputs, b2);
    OutputsRoundTrip(tx.outputs, b3);
    U32RoundTrip(tx.lockTime, rest);
  }

  /** Whatever decodes is the encoding of the result followed by the bytes left over. */
  lemma {:induction false} TxCanonical(b: seq<Byte>)
    requires DecodeTx(b).Ok?
    ensures b == EncodeTx(DecodeTx(b).value) + DecodeTx(b).rest
    ensures FitsWindow(DecodeTx(b).value)
  {
    var v := DecodeU32(b);
    U32Canonical(b);
    BodyCanonical(AsI32(v.value), v.rest);
    assert AsU32(AsI32(v.value)) == v.value;
  }

  lemma {:induction false} BodyCanonical(version: I32, b: seq<Byte>)
    requires DecodeBody(version, b).Ok?
    ensures var d := DecodeBody(version, b);
            d.value.version == version && b == EncodeBody(d.value) + d.rest && FitsWindow(d.value)
  {
    var b1 := DecodeU32(b).rest;
    var b2 := DecodeInputs(b1).rest;
    var b3 := DecodeOutputs(b2).rest;
    U32Canonical(b);
    InputsCanonical(b1);
    OutputsCanonical(b2);
    U32Canonical(b3);
    BodyParts(DecodeBody(version, b).value, DecodeBody(version, b).rest);
  }

  /** No encoding is a prefix of another, of whatever size; so equal encodings have equal transactions. */
  lemma {:induction false} EncodingPrefixFree(tx1: Tx, tx2: Tx, r1: seq<Byte>, r2: seq<Byte>)
    requires EncodeTx(tx1) + r1 == EncodeTx(tx2) + r2
    ensures tx1 == tx2 && r1 == r2
  {
    var a1, a2 := EncodeBody(tx1) + r1, EncodeBody(tx2) + r2;
    Assoc(ToLE(AsU32(tx1.version), 4), EncodeBody(tx1), r1);
    Assoc(ToLE(AsU32(tx2.version), 4), EncodeBody(tx2), r2);
    U32PrefixFree(AsU32(tx1.version), AsU32(tx2.version), a1, a2);
    BodyPrefixFree(tx1, tx2, r1, r2);
  }

  lemma {:induction false} BodyPrefixFree(tx1: Tx, tx2: Tx, r1: seq<Byte>, r2: seq<Byte>)
    requires EncodeBody(tx1) + r1 == EncodeBody(tx2) + r2
    ensures tx1.nTime == tx2.nTime && tx1.inputs == tx2.inputs && tx1.outputs == tx2.outputs
    ensures tx1.lockTime == tx2.lockTime && r1 == r2
  {
    BodyParts(tx1, r1);
    BodyParts(tx2, r2);
    var d1, d2 := ToLE(tx1.lockTime, 4) + r1, ToLE(tx2.lockTime, 4) + r2;
    var c1, c2 := EncodeOutputs(tx1.outputs) + d1, EncodeOutputs(tx2.outputs) + d2;
    U32PrefixFree(tx1.nTime, tx2.nTime, EncodeInputs(tx1.inputs) + c1, EncodeInputs(tx2.inputs) + c2);
    InputsPrefixFree(tx1.inputs, tx2.inputs, c1, c2);
    OutputsPrefixFree(tx1.outputs, tx2.outputs, d1, d2);
    U32PrefixFree(tx1.lockTime, tx2.lockTime, r1, r2);
  }

  lemma {:induction false} U32PrefixFree(n1: U32, n2: U32, r1: seq<Byte>, r2: seq<Byte>)
    requires ToLE(n1, 4) + r1 == ToLE(n2, 4) + r2
    ensures n1 == n2 && r1 == r2
  {
    U32RoundTrip(n1, r1);
    U32RoundTrip(n2, r2);
  }
}
