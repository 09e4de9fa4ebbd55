/** The legacy signature hash: a rewritten copy of the transaction, serialized, and the hash type. */
module Sighash {
  import opened Bytes
  import opened Outcome
  import opened ScriptCode
  import opened Wire
  import opened WireLayout

  const SIGHASH_ALL: I32 := 1

  /** TxOut::NULL: value -1 and an empty script. */
  const NULL_OUTPUT := TxOut(TWO_64 - 1, [])

  function BaseType(hashType: I32): nat { AsU32(hashType) % 32 }

  predicate IsNone(hashType: I32) { BaseType(hashType) == 2 }

  predicate IsSingle(hashType: I32) { BaseType(hashType) == 3 }

  predicate AnyoneCanPay(hashType: I32) { AsU32(hashType) / 128 % 2 == 1 }

  /** Input `k` as it appears in the copy made for input `i`. */
  function MaskedInput(tx: Tx, i: nat, code: Script, hashType: I32, k: nat): TxIn
    requires k < |tx.inputs|
  {
    StrippedNoLonger(code);
    if k == i then tx.inputs[k].(scriptSig := Stripped(code))
    else TxIn(tx.inputs[k].prevout, [],
              if IsNone(hashType) || IsSingle(hashType) then 0 else tx.inputs[k].sequence)
  }

  predicate InRange(tx: Tx, i: nat, hashType: I32) {
    i < |tx.inputs| && (IsSingle(hashType) ==> i < |tx.outputs|)
  }

  function MaskedInputs(tx: Tx, i: nat, code: Script, hashType: I32): Inputs
    requires i < |tx.inputs|
  {
    if AnyoneCanPay(hashType) then [MaskedInput(tx, i, code, hashType, i)]
    else seq(|tx.inputs|, k requires 0 <= k < |tx.inputs| => MaskedInput(tx, i, code, hashType, k))
  }

  function MaskedOutputs(tx: Tx, i: nat, hashType: I32): Outputs
    requires InRange(tx, i, hashType)
  {
    if IsSingle(hashType) then
      seq(i + 1, k requires 0 <= k <= i => if k == i then tx.outputs[i] else NULL_OUTPUT)
    else tx.outputs
  }

  /** The copy that the signature hash edits. */
  function Masked(tx: Tx, i: nat, code: Script, hashType: I32): Tx
    requires InRange(tx, i, hashType)
  {
    tx.(inputs := MaskedInputs(tx, i, code, hashType), outputs := MaskedOutputs(tx, i, hashType))
  }

  /** What is hashed for input `i`. */
  function Preimage(tx: Tx, i: nat, code: Script, hashType: I32): seq<Byte>
    requires InRange(tx, i, hashType)
  {
    EncodeTx(Masked(tx, i, code, hashType)) + ToLE(AsU32(hashType), 4)
  }

  function Digest(hash: seq<Byte> -> Hash256, tx: Tx, i: nat, code: Script, hashType: I32): Result<Hash256> {
    if i >= |tx.inputs| then Failure(IndexOutOfRange)
    else if !InRange(tx, i, hashType) then Success(seq(32, _ => 1))
    else Success(hash(Preimage(tx, i, code, hashType)))
  }

  method VeriumSignatureHash(
    hash: seq<Byte> -> Hash256, tx: Tx, inputIndex: nat, scriptCode: Script, hashType: I32)
    returns (r: Result<Hash256>)
    ensures r == Digest(hash, tx, inputIndex, scriptCode, hashType)
  {
    if inputIndex >= |tx.inputs| {
      return Failure(IndexOutOfRange);
    }
    var code := FindAndDeleteCodeSeparators(scriptCode);
    StrippedNoLonger(scriptCode);
    var outputs := tx.outputs;
    var inputs := ClearScriptSigs(tx.inputs);
    inputs := inputs[inputIndex := inputs[inputIndex].(scriptSig := code)];
    if IsNone(hashType) {
      inputs := ZeroOtherSequences(inputs, inputIndex);
    } else if IsSingle(hashType) {
      if inputIndex >= |outputs| {
        return Success(seq(32, _ => 1));
      }
      outputs := NullBefore(outputs[..inputIndex + 1], inputIndex);
      inputs := ZeroOtherSequences(inputs, inputIndex);
    }
    if AnyoneCanPay(hashType) {
      inputs := [inputs[inputIndex]];
    }
    assert inputs == MaskedInputs(tx, inputIndex, scriptCode, hashType);
    assert outputs == MaskedOutputs(tx, inputIndex, hashType);
    var data := SerializeVeriumTx(tx.(inputs := inputs, outputs := outputs));
    data := data + ToLE(AsU32(hashType), 4);
    return Success(hash(data));
  }

  method ClearScriptSigs(before: Inputs) returns (inputs: Inputs)
    ensures |inputs| == |before|
    ensures forall k :: 0 <= k < |before| ==> inputs[k] == before[k].(scriptSig := [])
  {
    inputs := before;
    for i := 0 to |before|
      invariant |inputs| == |before|
      invariant forall k :: 0 <= k < |before| ==>
        inputs[k] == if k < i then before[k].(scriptSig := []) else before[k]
    {
      inputs := inputs[i := inputs[i].(scriptSig := [])];
    }
  }

  method NullBefore(before: Outputs, end: nat) returns (outputs: Outputs)
    requires end <= |before|
    ensures |outputs| == |before|
    ensures forall k :: 0 <= k < |before| ==> outputs[k] == if k < end then NULL_OUTPUT else before[k]
  {
    outputs := before;
    for i := 0 to end
      invariant |outputs| == |before|
      invariant forall k :: 0 <= k < |before| ==> outputs[k] == if k < i then NULL_OUTPUT else before[k]
    {
      outputs := outputs[i := NULL_OUTPUT];
    }
  }

  method ZeroOtherSequences(before: Inputs, keep: nat) returns (inputs: Inputs)
    ensures |inputs| == |before|
    ensures forall k :: 0 <= k < |before| ==>
      inputs[k] == if k == keep then before[k] else before[k].(sequence := 0)
  {
    inputs := before;
    for i := 0 to |before|
      invariant |inputs| == |before|
      invariant forall k :: 0 <= k < |before| ==>
        inputs[k] == if k == keep || k >= i then before[k] else before[k].(sequence := 0)
    {
      if i != keep {
        inputs := inputs[i := inputs[i].(sequence := 0)];
      }
    }
  }

  // ---------------------------------------------------------------- what a signature commits to

  /** The two transactions agree on everything a signature of this type for input `i` covers. */
  ghost predicate SameCommitment(t1: Tx, t2: Tx, i: nat, hashType: I32)
    requires InRange(t1, i, hashType) && InRange(t2, i, hashType)
  {
    && t1.version == t2.version && t1.nTime == t2.nTime && t1.lockTime == t2.lockTime
    && t1.inputs[i].prevout == t2.inputs[i].prevout
    && t1.inputs[i].sequence == t2.inputs[i].sequence
    && (!AnyoneCanPay(hashType) ==>
          && |t1.inputs| == |t2.inputs|
          && (forall k :: 0 <= k < |t1.inputs| ==> t1.inputs[k].prevout == t2.inputs[k].prevout)
          && (!IsNone(hashType) && !IsSingle(hashType) ==>
                forall k :: 0 <= k < |t1.inputs| ==> t1.inputs[k].sequence == t2.inputs[k].sequence))
    && (if IsSingle(hashType) then t1.outputs[i] == t2.outputs[i] else t1.outputs == t2.outputs)
  }

  /**
   * Preimages are equal exactly when hash type, stripped script code and the committed part of
   * the transaction are: nothing committed is malleable, nothing else matters.
   */
  lemma {:induction false} PreimageCommitsExactly(t1: Tx, t2: Tx, i: nat, c1: Script, c2: Script, h1: I32, h2: I32)
    requires InRange(t1, i, h1) && InRange(t2, i, h2)
    ensures Preimage(t1, i, c1, h1) == Preimage(t2, i, c2, h2) <==>
            h1 == h2 && Stripped(c1) == Stripped(c2) && SameCommitment(t1, t2, i, h1)
  {
    var in1, in2 := MaskedInputs(t1, i, c1, h1), MaskedInputs(t2, i, c2, h2);
    var out1, out2 := MaskedOutputs(t1, i, h1), MaskedOutputs(t2, i, h2);
    if Preimage(t1, i, c1, h1) == Preimage(t2, i, c2, h2) {
      EncodingPrefixFree(t1.(inputs := in1, outputs := out1), t2.(inputs := in2, outputs := out2),
                         ToLE(AsU32(h1), 4), ToLE(AsU32(h2), 4));
      U32PrefixFree(AsU32(h1), AsU32(h2), [], []);
      assert AsI32(AsU32(h1)) == h1 && AsI32(AsU32(h2)) == h2;
      InputsCommitExactly(t1, t2, i, c1, c2, h1);
      assert IsSingle(h1) ==> out1[i] == t1.outputs[i] && out2[i] == t2.outputs[i];
    }
    if h1 == h2 && Stripped(c1) == Stripped(c2) && SameCommitment(t1, t2, i, h1) {
      InputsCommitExactly(t1, t2, i, c1, c2, h1);
      assert out1 == out2;
    }
  }

  lemma {:induction false} InputsCommitExactly(t1: Tx, t2: Tx, i: nat, c1: Script, c2: Script, h: I32)
    requires i < |t1.inputs| && i < |t2.inputs|
    ensures MaskedInputs(t1, i, c1, h) == MaskedInputs(t2, i, c2, h) <==>
            && Stripped(c1) == Stripped(c2)
            && t1.inputs[i].prevout == t2.inputs[i].prevout
            && t1.inputs[i].sequence == t2.inputs[i].sequence
            && (!AnyoneCanPay(h) ==>
                  && |t1.inputs| == |t2.inputs|
                  && (forall k :: 0 <= k < |t1.inputs| ==> t1.inputs[k].prevout == t2.inputs[k].prevout)
                  && (!IsNone(h) && !IsSingle(h) ==>
                        forall k :: 0 <= k < |t1.inputs| ==> t1.inputs[k].sequence == t2.inputs[k].sequence))
  {
    var in1, in2 := MaskedInputs(t1, i, c1, h), MaskedInputs(t2, i, c2, h);
    var own := if AnyoneCanPay(h) then 0 else i;
    assert in1[own] == t1.inputs[i].(scriptSig := in1[own].scriptSig) && in1[own].scriptSig == Stripped(c1);
    assert in2[own] == t2.inputs[i].(scriptSig := in2[own].scriptSig) && in2[own].scriptSig == Stripped(c2);
    if !AnyoneCanPay(h) && in1 == in2 {
      forall k | 0 <= k < |in1|
        ensures t1.inputs[k].prevout == t2.inputs[k].prevout
        ensures !IsNone(h) && !IsSingle(h) ==> t1.inputs[k].sequence == t2.inputs[k].sequence
      {
        assert in1[k] == in2[k];
      }
    }
  }

  /** Replacing scriptSigs, of any inputs, never changes the digest of any input under any hash type. */
  lemma {:induction false} DigestIgnoresScriptSigs(hash: seq<Byte> -> Hash256, t1: Tx, t2: Tx, i: nat, code: Script,
                                                   hashType: I32)
    requires t2 == t1.(inputs := t2.inputs) && |t1.inputs| == |t2.inputs|
    requires forall k :: 0 <= k < |t1.inputs| ==> t2.inputs[k] == t1.inputs[k].(scriptSig := t2.inputs[k].scriptSig)
    ensures Digest(hash, t1, i, code, hashType) == Digest(hash, t2, i, code, hashType)
  {
    if InRange(t1, i, hashType) {
      PreimageCommitsExactly(t1, t2, i, code, code, hashType, hashType);
    }
  }

  /** Under SINGLE every other output may be replaced, dropped behind, or added behind. */
  lemma {:induction false} SingleIgnoresOtherOutputs(hash: seq<Byte> -> Hash256, t1: Tx, t2: Tx, i: nat,
                                                     code: Script, hashType: I32)
    requires IsSingle(hashType)
    requires t2 == t1.(outputs := t2.outputs)
    requires i < |t1.outputs| && i < |t2.outputs| && t1.outputs[i] == t2.outputs[i]
    ensures Digest(hash, t1, i, code, hashType) == Digest(hash, t2, i, code, hashType)
  {
    if InRange(t1, i, hashType) {
      PreimageCommitsExactly(t1, t2, i, code, code, hashType, hashType);
    }
  }

  // ---------------------------------------------------------------- what the hashed bytes are

  /** The types in use: ALL, NONE and SINGLE, each also with ANYONECANPAY. */
  lemma {:induction false} HashTypes()
    ensures !IsNone(1) && !IsSingle(1) && !AnyoneCanPay(1) && AnyoneCanPay(0x81)
    ensures IsNone(2) && IsNone(0x82) && !AnyoneCanPay(2) && AnyoneCanPay(0x82)
    ensures IsSingle(3) && IsSingle(0x83) && !AnyoneCanPay(3) && AnyoneCanPay(0x83)
  {
  }

  /** The inputs of the copy: the script code in the signed one, no script and perhaps no sequence in the others. */
  ghost predicate InputsOfCopy(tx: Tx, i: nat, code: seq<Byte>, hashType: I32, inputs: Inputs)
    requires i < |tx.inputs|
  {
    if AnyoneCanPay(hashType) then
      && |inputs| == 1 && inputs[0].prevout == tx.inputs[i].prevout
      && inputs[0].scriptSig == code && inputs[0].sequence == tx.inputs[i].sequence
    else
      && |inputs| == |tx.inputs|
      && forall k :: 0 <= k < |inputs| ==>
           && inputs[k].prevout == tx.inputs[k].prevout
           && inputs[k].scriptSig == (if k == i then code else [])
           && inputs[k].sequence ==
              (if k != i && (IsNone(hashType) || IsSingle(hashType)) then 0 else tx.inputs[k].sequence)
  }

  /** The outputs of the copy: all of them, or up to the signed one, with those before it void. */
  ghost predicate OutputsOfCopy(tx: Tx, i: nat, hashType: I32, outputs: Outputs) {
    if IsSingle(hashType) then
      && i < |tx.outputs| && |outputs| == i + 1 && outputs[i] == tx.outputs[i]
      && forall k :: 0 <= k < i ==> outputs[k].value == 0xFFFF_FFFF_FFFF_FFFF && outputs[k].scriptPubKey == []
    else outputs == tx.outputs
  }

  ghost predicate CopyFor(tx: Tx, i: nat, code: seq<Byte>, hashType: I32, copy: Tx)
    requires i < |tx.inputs|
  {
    && copy.version == tx.version && copy.nTime == tx.nTime && copy.lockTime == tx.lockTime
    && InputsOfCopy(tx, i, code, hashType, copy.inputs) && OutputsOfCopy(tx, i, hashType, copy.outputs)
  }

  /** The bytes of the copy, followed by the type in four bytes. */
  ghost predicate SignedBytes(p: seq<Byte>, copy: Tx, hashType: I32) {
    |p| >= 4 && LaidOut(p[..|p| - 4], copy) && U32At(p, |p| - 4) == AsU32(hashType)
  }

  lemma {:induction false} BytesThenType(copy: Tx, tail: seq<Byte>, hashType: I32)
    requires |tail| == 4 && U32At(tail, 0) == AsU32(hashType)
    ensures SignedBytes(EncodeTx(copy) + tail, copy, hashType)
    ensures DecodeTx(EncodeTx(copy) + tail) == if FitsWindow(copy) then Ok(copy, tail) else Err
  {
    BytesThenTail(EncodeTx(copy), tail);
    LayoutIff(EncodeTx(copy), copy);
    TxRoundTrip(copy, tail);
  }

  lemma {:induction false} BytesThenTail(e: seq<Byte>, tail: seq<Byte>)
    requires |tail| == 4
    ensures var p := e + tail; p[..|p| - 4] == e && p[|p| - 4..] == tail && U32At(p, |p| - 4) == U32At(tail, 0)
  {
  }

  lemma {:induction false} TypeBytes(hashType: I32)
    ensures U32At(ToLE(AsU32(hashType), 4), 0) == AsU32(hashType)
  {
    var tail := ToLE(AsU32(hashType), 4);
    AtSlice(tail, 0, tail);
    assert tail[0..4] == tail;
    AtNumber(tail, 0, AsU32(hashType));
  }

  lemma {:induction false} MaskedIsCopy(tx: Tx, i: nat, code: Script, hashType: I32)
    requires InRange(tx, i, hashType)
    ensures CopyFor(tx, i, Stripped(code), hashType, Masked(tx, i, code, hashType))
  {
  }

  /** What is hashed are the bytes of the copy, field by field, and then the type; so they also decode to the copy. */
  lemma {:induction false} PreimageMeans(tx: Tx, i: nat, code: Script, hashType: I32) returns (copy: Tx)
    requires InRange(tx, i, hashType)
    ensures CopyFor(tx, i, Stripped(code), hashType, copy)
    ensures var p := Preimage(tx, i, code, hashType);
            && SignedBytes(p, copy, hashType)
            && DecodeTx(p) == if FitsWindow(copy) then Ok(copy, p[|p| - 4..]) else Err
  {
    copy := Masked(tx, i, code, hashType);
    MaskedIsCopy(tx, i, code, hashType);
    TypeBytes(hashType);
    BytesThenType(copy, ToLE(AsU32(hashType), 4), hashType);
    BytesThenTail(EncodeTx(copy), ToLE(AsU32(hashType), 4));
  }

  /** Every outcome: an index that is not there, SINGLE without its output, or the hash of those bytes. */
  lemma {:induction false} DigestMeans(hash: seq<Byte> -> Hash256, tx: Tx, i: nat, code: Script, hashType: I32)
    returns (p: seq<Byte>, copy: Tx)
    ensures i >= |tx.inputs| ==> Digest(hash, tx, i, code, hashType) == Failure(IndexOutOfRange)
    ensures i < |tx.inputs| && IsSingle(hashType) && i >= |tx.outputs| ==>
      Digest(hash, tx, i, code, hashType).Success? &&
      forall k :: 0 <= k < 32 ==> Digest(hash, tx, i, code, hashType).value[k] == 1
    ensures i < |tx.inputs| && (IsSingle(hashType) ==> i < |tx.outputs|) ==>
      && Digest(hash, tx, i, code, hashType) == Success(hash(p))
      && SignedBytes(p, copy, hashType) && CopyFor(tx, i, Stripped(code), hashType, copy)
  {
    p, copy := [], tx;
    if InRange(tx, i, hashType) {
      p := Preimage(tx, i, code, hashType);
      copy := PreimageMeans(tx, i, code, hashType);
    }
  }

  /** For the type that the wallet uses, the last four bytes are 1, 0, 0, 0. */
  lemma {:induction false} TypeAllEndsIn(p: seq<Byte>, copy: Tx)
    ensures SignedBytes(p, copy, SIGHASH_ALL) <==>
      |p| >= 4 && LaidOut(p[..|p| - 4], copy) && p[|p| - 4..] == [1, 0, 0, 0]
  {
    if |p| >= 4 {
      OneInFour(p[|p| - 4..]);
    }
  }

  lemma {:induction false} OneInFour(tail: seq<Byte>)
    requires |tail| == 4
    ensures U32At(tail, 0) == 1 <==> tail == [1, 0, 0, 0]
  {
    assert tail == [tail[0], tail[1], tail[2], tail[3]];
  }

  lemma {:induction false} CopyIsMasked(tx: Tx, i: nat, code: Script, hashType: I32, copy: Tx)
    requires InRange(tx, i, hashType) && CopyFor(tx, i, Stripped(code), hashType, copy)
    ensures copy == Masked(tx, i, code, hashType)
  {
    var m := Masked(tx, i, code, hashType);
    assert copy.inputs == m.inputs;
    assert copy.outputs == m.outputs;
  }

  lemma {:induction false} SameBytes(p: seq<Byte>, e: seq<Byte>, hashType: I32)
    requires |p| >= 4 && p[..|p| - 4] == e && U32At(p, |p| - 4) == AsU32(hashType)
    ensures p == e + ToLE(AsU32(hashType), 4)
  {
    AtNumber(p, |p| - 4, AsU32(hashType));
    AtSlice(p, |p| - 4, ToLE(AsU32(hashType), 4));
    assert p == p[..|p| - 4] + p[|p| - 4..];
  }

  /** No other copy is the copy, and no other bytes are its bytes. */
  lemma {:induction false} PreimageOnly(tx: Tx, i: nat, code: Script, hashType: I32, p: seq<Byte>, copy: Tx)
    requires InRange(tx, i, hashType)
    requires CopyFor(tx, i, Stripped(code), hashType, copy) && SignedBytes(p, copy, hashType)
    ensures p == Preimage(tx, i, code, hashType)
  {
    CopyIsMasked(tx, i, code, hashType, copy);
    LayoutIff(p[..|p| - 4], copy);
    SameBytes(p, EncodeTx(copy), hashType);
  }
}
