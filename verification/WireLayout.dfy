/** Where every field of a transaction stands in its bytes, told without the encoder or the decoder. */
module WireLayout {
  import opened Bytes
  import opened Wire

  /** A count takes one byte, or a marker and two, four or eight. */
  function CountWidth(n: nat): nat {
    if n < 0xFD then 1 else if n < 0x1_0000 then 3 else if n < 0x1_0000_0000 then 5 else 9
  }

  ghost predicate CountStands(e: seq<Byte>, at: nat, n: nat) {
    && at + CountWidth(n) <= |e|
    && if n < 0xFD then e[at] as int == n
       else if n < 0x1_0000 then e[at] == 0xFD && U16At(e, at + 1) == n
       else if n < 0x1_0000_0000 then e[at] == 0xFE && U32At(e, at + 1) == n
       else e[at] == 0xFF && U64At(e, at + 1) == n
  }

  function ScriptWidth(s: Script): nat {
    CountWidth(|s|) + |s|
  }

  ghost predicate ScriptStands(e: seq<Byte>, at: nat, s: Script) {
    && at + ScriptWidth(s) <= |e|
    && CountStands(e, at, |s|) && e[at + CountWidth(|s|)..at + ScriptWidth(s)] == s
  }

  function InputWidth(i: TxIn): nat {
    40 + ScriptWidth(i.scriptSig)
  }

  /** Outpoint, script, sequence. */
  ghost predicate InputStands(e: seq<Byte>, at: nat, i: TxIn) {
    && at + InputWidth(i) <= |e|
    && e[at..at + 32] == i.prevout.txid && U32At(e, at + 32) == i.prevout.vout
    && ScriptStands(e, at + 36, i.scriptSig)
    && U32At(e, at + 36 + ScriptWidth(i.scriptSig)) == i.sequence
  }

  function OutputWidth(o: TxOut): nat {
    8 + ScriptWidth(o.scriptPubKey)
  }

  /** Amount, script. */
  ghost predicate OutputStands(e: seq<Byte>, at: nat, o: TxOut) {
    && at + OutputWidth(o) <= |e|
    && U64At(e, at) == o.value && ScriptStands(e, at + 8, o.scriptPubKey)
  }

  function InputsWidth(xs: seq<TxIn>): nat {
    if xs == [] then 0 else InputWidth(xs[0]) + InputsWidth(xs[1..])
  }

  function OutputsWidth(xs: seq<TxOut>): nat {
    if xs == [] then 0 else OutputWidth(xs[0]) + OutputsWidth(xs[1..])
  }

  /** Each begins where the one before it ends. */
  ghost predicate InputsStand(e: seq<Byte>, at: nat, xs: seq<TxIn>)
    decreases |xs|
  {
    xs == [] || (InputStands(e, at, xs[0]) && InputsStand(e, at + InputWidth(xs[0]), xs[1..]))
  }

  ghost predicate OutputsStand(e: seq<Byte>, at: nat, xs: seq<TxOut>)
    decreases |xs|
  {
    xs == [] || (OutputStands(e, at, xs[0]) && OutputsStand(e, at + OutputWidth(xs[0]), xs[1..]))
  }

  function OutputsStart(tx: Tx): nat {
    8 + CountWidth(|tx.inputs|) + InputsWidth(tx.inputs)
  }

  function OutputsEnd(tx: Tx): nat {
    OutputsStart(tx) + CountWidth(|tx.outputs|) + OutputsWidth(tx.outputs)
  }

  ghost predicate NumbersStand(e: seq<Byte>, tx: Tx)
    requires |e| == OutputsEnd(tx) + 4
  {
    && U32At(e, 0) == AsU32(tx.version) && U32At(e, 4) == tx.nTime
    && U32At(e, OutputsEnd(tx)) == tx.lockTime
  }

  ghost predicate VectorsStand(e: seq<Byte>, tx: Tx) {
    && CountStands(e, 8, |tx.inputs|) && InputsStand(e, 8 + CountWidth(|tx.inputs|), tx.inputs)
    && CountStands(e, OutputsStart(tx), |tx.outputs|)
    && OutputsStand(e, OutputsStart(tx) + CountWidth(|tx.outputs|), tx.outputs)
  }

  /** Version, time, inputs, outputs, lock time; numbers with their least significant byte first. */
  ghost predicate LaidOut(e: seq<Byte>, tx: Tx) {
    |e| == OutputsEnd(tx) + 4 && NumbersStand(e, tx) && VectorsStand(e, tx)
  }

  // ---------------------------------------------------------------- the encoder

  lemma {:induction false} CountIff(e: seq<Byte>, at: nat, n: U64)
    requires at <= |e|
    ensures |CompactSize(n)| == CountWidth(n)
    ensures CountStands(e, at, n) <==> At(e, at, CompactSize(n))
  {
    if n < 0xFD {
      AtSlice(e, at, [n as Byte]);
    } else if at < |e| {
      var tag: Byte := if n < TWO_16 then 0xFD else if n < TWO_32 then 0xFE else 0xFF;
      AtBoth(e, at, [tag], ToLE(n, CountWidth(n) - 1));
      AtSlice(e, at, [tag]);
      AtNumber(e, at + 1, n);
    }
  }

  lemma {:induction false} ScriptIff(e: seq<Byte>, at: nat, s: Script)
    requires at <= |e|
    ensures |EncodeScript(s)| == ScriptWidth(s)
    ensures ScriptStands(e, at, s) <==> At(e, at, EncodeScript(s))
  {
    CountIff(e, at, |s|);
    AtBoth(e, at, CompactSize(|s|), s);
    if CountStands(e, at, |s|) {
      AtSlice(e, at + CountWidth(|s|), s);
    }
  }

  lemma {:induction false} InputParts(e: seq<Byte>, at: nat, i: TxIn)
    ensures At(e, at, EncodeTxIn(i)) <==>
      && At(e, at, i.prevout.txid) && At(e, at + 32, ToLE(i.prevout.vout, 4))
      && At(e, at + 36, EncodeScript(i.scriptSig))
      && At(e, at + 36 + |EncodeScript(i.scriptSig)|, ToLE(i.sequence, 4))
  {
    var d := ToLE(i.sequence, 4);
    var c := EncodeScript(i.scriptSig) + d;
    AtBoth(e, at, i.prevout.txid, ToLE(i.prevout.vout, 4) + c);
    AtBoth(e, at + 32, ToLE(i.prevout.vout, 4), c);
    AtBoth(e, at + 36, EncodeScript(i.scriptSig), d);
  }

  lemma {:induction false} InputIff(e: seq<Byte>, at: nat, i: TxIn)
    requires at <= |e|
    ensures |EncodeTxIn(i)| == InputWidth(i)
    ensures InputStands(e, at, i) <==> At(e, at, EncodeTxIn(i))
  {
    ScriptIff(e, at, i.scriptSig);
    InputParts(e, at, i);
    AtSlice(e, at, i.prevout.txid);
    if at + 32 <= |e| {
      AtNumber(e, at + 32, i.prevout.vout);
    }
    if at + 36 <= |e| {
      ScriptIff(e, at + 36, i.scriptSig);
    }
    if at + 36 + ScriptWidth(i.scriptSig) <= |e| {
      AtNumber(e, at + 36 + ScriptWidth(i.scriptSig), i.sequence);
    }
  }

  lemma {:induction false} OutputIff(e: seq<Byte>, at: nat, o: TxOut)
    requires at <= |e|
    ensures |EncodeTxOut(o)| == OutputWidth(o)
    ensures OutputStands(e, at, o) <==> At(e, at, EncodeTxOut(o))
  {
    AtBoth(e, at, ToLE(o.value, 8), EncodeScript(o.scriptPubKey));
    AtNumber(e, at, o.value);
    if at + 8 <= |e| {
      ScriptIff(e, at + 8, o.scriptPubKey);
    } else {
      ScriptIff(e, at, o.scriptPubKey);
    }
  }

  lemma {:induction false} InputsIff(e: seq<Byte>, at: nat, xs: seq<TxIn>)
    requires at <= |e|
    ensures |EncodeItems(EncodeTxIn, xs)| == InputsWidth(xs)
    ensures InputsStand(e, at, xs) <==> At(e, at, EncodeItems(EncodeTxIn, xs))
    decreases |xs|
  {
    if xs != [] {
      InputIff(e, at, xs[0]);
      AtBoth(e, at, EncodeTxIn(xs[0]), EncodeItems(EncodeTxIn, xs[1..]));
      InputsIff(e, if InputStands(e, at, xs[0]) then at + InputWidth(xs[0]) else at, xs[1..]);
    }
  }

  lemma {:induction false} OutputsIff(e: seq<Byte>, at: nat, xs: seq<TxOut>)
    requires at <= |e|
    ensures |EncodeItems(EncodeTxOut, xs)| == OutputsWidth(xs)
    ensures OutputsStand(e, at, xs) <==> At(e, at, EncodeItems(EncodeTxOut, xs))
    decreases |xs|
  {
    if xs != [] {
      OutputIff(e, at, xs[0]);
      AtBoth(e, at, EncodeTxOut(xs[0]), EncodeItems(EncodeTxOut, xs[1..]));
      OutputsIff(e, if OutputStands(e, at, xs[0]) then at + OutputWidth(xs[0]) else at, xs[1..]);
    }
  }

  lemma {:induction false} InputVectorIff(e: seq<Byte>, at: nat, xs: Inputs)
    requires at <= |e|
    ensures |EncodeInputs(xs)| == CountWidth(|xs|) + InputsWidth(xs)
    ensures At(e, at, EncodeInputs(xs)) <==> CountStands(e, at, |xs|) && InputsStand(e, at + CountWidth(|xs|), xs)
  {
    CountIff(e, at, |xs|);
    AtBoth(e, at, CompactSize(|xs|), EncodeItems(EncodeTxIn, xs));
    InputsIff(e, if CountStands(e, at, |xs|) then at + CountWidth(|xs|) else at, xs);
  }

  lemma {:induction false} OutputVectorIff(e: seq<Byte>, at: nat, xs: Outputs)
    requires at <= |e|
    ensures |EncodeOutputs(xs)| == CountWidth(|xs|) + OutputsWidth(xs)
    ensures At(e, at, EncodeOutputs(xs)) <==> CountStands(e, at, |xs|) && OutputsStand(e, at + CountWidth(|xs|), xs)
  {
    CountIff(e, at, |xs|);
    AtBoth(e, at, CompactSize(|xs|), EncodeItems(EncodeTxOut, xs));
    OutputsIff(e, if CountStands(e, at, |xs|) then at + CountWidth(|xs|) else at, xs);
  }

  /** Five pieces of bytes, one behind the other. */
  ghost predicate FiveStand(e: seq<Byte>, a: seq<Byte>, b: seq<Byte>, c: seq<Byte>, d: seq<Byte>, f: seq<Byte>) {
    && At(e, 0, a) && At(e, |a|, b) && At(e, |a| + |b|, c) && At(e, |a| + |b| + |c|, d)
    && At(e, |a| + |b| + |c| + |d|, f)
  }

  lemma {:induction false} FiveIff(e: seq<Byte>, a: seq<Byte>, b: seq<Byte>, c: seq<Byte>, d: seq<Byte>, f: seq<Byte>)
    ensures e == a + (b + (c + (d + f))) <==>
            |e| == |a| + |b| + |c| + |d| + |f| && FiveStand(e, a, b, c, d, f)
  {
    var x := a + (b + (c + (d + f)));
    AtSlice(e, 0, x);
    assert e[0..|e|] == e;
    AtBoth(e, 0, a, b + (c + (d + f)));
    AtBoth(e, |a|, b, c + (d + f));
    AtBoth(e, |a| + |b|, c, d + f);
    AtBoth(e, |a| + |b| + |c|, d, f);
  }

  lemma {:induction false} NumbersIff(e: seq<Byte>, tx: Tx)
    requires |e| == OutputsEnd(tx) + 4
    ensures NumbersStand(e, tx) <==>
      && At(e, 0, ToLE(AsU32(tx.version), 4)) && At(e, 4, ToLE(tx.nTime, 4))
      && At(e, OutputsEnd(tx), ToLE(tx.lockTime, 4))
  {
    AtNumber(e, 0, AsU32(tx.version));
    AtNumber(e, 4, tx.nTime);
    AtNumber(e, OutputsEnd(tx), tx.lockTime);
  }

  lemma {:induction false} VectorsIff(e: seq<Byte>, tx: Tx)
    requires |e| == OutputsEnd(tx) + 4
    ensures VectorsStand(e, tx) <==>
      At(e, 8, EncodeInputs(tx.inputs)) && At(e, OutputsStart(tx), EncodeOutputs(tx.outputs))
  {
    InputVectorIff(e, 8, tx.inputs);
    OutputVectorIff(e, OutputsStart(tx), tx.outputs);
  }

  lemma {:induction false} Widths(tx: Tx)
    ensures |EncodeInputs(tx.inputs)| == OutputsStart(tx) - 8
    ensures |EncodeOutputs(tx.outputs)| == OutputsEnd(tx) - OutputsStart(tx)
  {
    InputVectorIff([], 0, tx.inputs);
    OutputVectorIff([], 0, tx.outputs);
  }

  lemma {:induction false} EncodedStands(e: seq<Byte>, tx: Tx)
    ensures e == EncodeTx(tx) <==>
      && |e| == OutputsEnd(tx) + 4
      && At(e, 0, ToLE(AsU32(tx.version), 4)) && At(e, 4, ToLE(tx.nTime, 4))
      && At(e, 8, EncodeInputs(tx.inputs)) && At(e, OutputsStart(tx), EncodeOutputs(tx.outputs))
      && At(e, OutputsEnd(tx), ToLE(tx.lockTime, 4))
  {
    Widths(tx);
    FiveIff(e, ToLE(AsU32(tx.version), 4), ToLE(tx.nTime, 4), EncodeInputs(tx.inputs), EncodeOutputs(tx.outputs),
            ToLE(tx.lockTime, 4));
  }

  /** The bytes of a transaction are those in which every field stands where it belongs, and no others. */
  lemma {:induction false} LayoutIff(e: seq<Byte>, tx: Tx)
    ensures LaidOut(e, tx) <==> e == EncodeTx(tx)
  {
    EncodedStands(e, tx);
    if |e| == OutputsEnd(tx) + 4 {
      NumbersIff(e, tx);
      VectorsIff(e, tx);
    }
  }
}
