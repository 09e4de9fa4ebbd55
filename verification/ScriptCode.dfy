/** Script instructions: OP_CODESEPARATOR removal and the two-push scriptSig. */
module ScriptCode {
  import opened Bytes
  import opened Outcome

  const OP_CODESEPARATOR: Byte := 0xab

  /** A direct push, a push with a length field of `width` bytes, or any other opcode. */
  datatype Instr =
    | Direct(data: seq<Byte>)
    | Sized(width: nat, data: seq<Byte>)
    | Op(code: Byte)
  {
    predicate Valid() {
      match this
      case Direct(d) => 1 <= |d| <= 0x4b
      case Sized(w, d) => (w == 1 || w == 2 || w == 4) && |d| < Pow256(w)
      case Op(c) => c == 0 || c > 0x4e
    }
  }

  /** OP_PUSHDATA1, OP_PUSHDATA2 and OP_PUSHDATA4 by the width of their length field. */
  function SizedOpcode(width: nat): Byte {
    if width == 1 then 0x4c else if width == 2 then 0x4d else 0x4e
  }

  function SizeWidth(opcode: Byte): nat {
    if opcode == 0x4c then 1 else if opcode == 0x4d then 2 else 4
  }

  function EncodeInstr(i: Instr): (b: seq<Byte>)
    requires i.Valid()
    ensures b != []
  {
    match i
    case Direct(d) => [|d| as Byte] + d
    case Sized(w, d) => [SizedOpcode(w)] + (ToLE(|d|, w) + d)
    case Op(c) => [c]
  }

  datatype First = NoInstr | FirstInstr(instr: Instr, rest: seq<Byte>)

  datatype Pushed = NoData | Pushed(data: seq<Byte>, rest: seq<Byte>)

  /** The data of a push whose length field has `width` bytes, and what follows it. */
  function SizedPush(width: nat, b: seq<Byte>): (r: Pushed)
    ensures r.Pushed? ==> |r.data| < Pow256(width) && |r.rest| <= |b|
  {
    if |b| < width then NoData
    else
      ToFromLE(b[..width]);
      var n := FromLE(b[..width]);
      if |b| < width + n then NoData else Pushed(b[width..width + n], b[width + n..])
  }

  function ParseDirect(n: nat, b: seq<Byte>): (r: First)
    requires 1 <= n <= 0x4b
    ensures r.FirstInstr? ==> |r.rest| <= |b| && r.instr.Valid()
  {
    if |b| < n then NoInstr else FirstInstr(Direct(b[..n]), b[n..])
  }

  function ParseSized(width: nat, b: seq<Byte>): (r: First)
    requires width == 1 || width == 2 || width == 4
    ensures r.FirstInstr? ==> |r.rest| <= |b| && r.instr.Valid()
  {
    var p := SizedPush(width, b);
    if p.NoData? then NoInstr else FirstInstr(Sized(width, p.data), p.rest)
  }

  /** The first instruction of a script and what follows it, if it is complete. */
  function ParseFirst(s: seq<Byte>): (r: First)
    ensures r.FirstInstr? ==> |r.rest| < |s| && r.instr.Valid()
  {
    if s == [] then NoInstr
    else if 1 <= s[0] <= 0x4b then ParseDirect(s[0] as int, s[1..])
    else if 0x4c <= s[0] <= 0x4e then ParseSized(SizeWidth(s[0]), s[1..])
    else FirstInstr(Op(s[0]), s[1..])
  }

  predicate AllValid(ops: seq<Instr>) {
    forall k :: 0 <= k < |ops| ==> ops[k].Valid()
  }

  /** The instructions up to the end or to the first incomplete one. */
  function Instructions(s: seq<Byte>): (ops: seq<Instr>)
    ensures AllValid(ops)
    decreases |s|
  {
    match ParseFirst(s)
    case NoInstr => []
    case FirstInstr(i, rest) => [i] + Instructions(rest)
  }

  /** The whole script is a sequence of complete instructions. */
  predicate Complete(s: seq<Byte>)
    decreases |s|
  {
    match ParseFirst(s)
    case NoInstr => s == []
    case FirstInstr(_, rest) => Complete(rest)
  }

  function Assemble(ops: seq<Instr>): seq<Byte>
    requires AllValid(ops)
  {
    if ops == [] then [] else EncodeInstr(ops[0]) + Assemble(ops[1..])
  }

  function WithoutSeparators(ops: seq<Instr>): (r: seq<Instr>)
    ensures AllValid(ops) ==> AllValid(r)
    ensures |r| <= |ops|
  {
    if ops == [] then []
    else (if ops[0] == Op(OP_CODESEPARATOR) then [] else [ops[0]]) + WithoutSeparators(ops[1..])
  }

  /** What FindAndDelete(scriptCode, OP_CODESEPARATOR) leaves. */
  function Stripped(s: seq<Byte>): seq<Byte> {
    Assemble(WithoutSeparators(Instructions(s)))
  }

  // ---------------------------------------------------------------- the code

  /** End offset of the instruction at `start` and whether it is the separator. */
  function NextScriptInstruction(script: seq<Byte>, start: nat): (r: Option<(nat, bool)>)
    ensures r.Some? ==> start < r.value.0 <= |script|
  {
    if start >= |script| then None
    else
      var opcode := script[start];
      var end := start + 1;
      var next :=
        if 0x01 <= opcode <= 0x4b then Some(end + opcode as int)
        else if opcode == 0x4c then
          if end >= |script| then None else Some(end + 1 + script[end] as int)
        else if opcode == 0x4d then
          if end + 2 > |script| then None else Some(end + 2 + FromLE(script[end..end + 2]))
        else if opcode == 0x4e then
          if end + 4 > |script| then None else Some(end + 4 + FromLE(script[end..end + 4]))
        else Some(end);
      if next.None? || next.value > |script| then None else Some((next.value, opcode == OP_CODESEPARATOR))
  }

  method FindAndDeleteCodeSeparators(script: seq<Byte>) returns (out: seq<Byte>)
    ensures out == Stripped(script)
  {
    out := [];
    var pc := 0;
    while pc < |script|
      invariant 0 <= pc <= |script|
      invariant out + Stripped(script[pc..]) == Stripped(script)
    {
      StepMatches(script, pc);
      match NextScriptInstruction(script, pc) {
        case Some((end, isSeparator)) =>
          StrippedStep(script[pc..]);
          if !isSeparator {
            Assoc(out, script[pc..end], Stripped(script[end..]));
            out := out + script[pc..end];
          }
          pc := end;
        case None =>
          break;
      }
    }
  }

  /** Offsets and suffixes agree. */
  lemma {:induction false} StepMatches(script: seq<Byte>, pc: nat)
    requires pc < |script|
    ensures match NextScriptInstruction(script, pc)
            case None => ParseFirst(script[pc..]).NoInstr?
            case Some((end, isSeparator)) =>
              var first := ParseFirst(script[pc..]);
              && first.FirstInstr?
              && first.rest == script[end..]
              && script[pc..end] == EncodeInstr(first.instr)
              && (isSeparator <==> first.instr == Op(OP_CODESEPARATOR))
  {
    SameEnd(script, pc);
    if ParseFirst(script[pc..]).FirstInstr? {
      var end := NextScriptInstruction(script, pc).value.0;
      FirstCanonical(script[pc..]);
      assert script[pc..] == script[pc..end] + script[end..];
    }
  }

  lemma {:induction false} SameEnd(script: seq<Byte>, pc: nat)
    requires pc < |script|
    ensures match NextScriptInstruction(script, pc)
            case None => ParseFirst(script[pc..]).NoInstr?
            case Some((end, isSeparator)) =>
              var first := ParseFirst(script[pc..]);
              && first.FirstInstr?
              && first.rest == script[end..]
              && (isSeparator <==> first.instr == Op(OP_CODESEPARATOR))
  {
    var s, end := script[pc..], pc + 1;
    assert s[1..] == script[end..];
    if 0x4c <= s[0] <= 0x4e {
      var w := SizeWidth(s[0]);
      if end + w <= |script| {
        assert s[1..][..w] == script[end..end + w];
        assert w == 1 ==> FromLE(script[end..end + 1]) == script[end] as int + 256 * FromLE([]);
      }
    }
  }

  lemma {:induction false} StrippedStep(s: seq<Byte>)
    requires ParseFirst(s).FirstInstr?
    ensures var f := ParseFirst(s);
            Stripped(s) == if f.instr == Op(OP_CODESEPARATOR) then Stripped(f.rest)
                           else EncodeInstr(f.instr) + Stripped(f.rest)
  {
    var f := ParseFirst(s);
    var ops := Instructions(s);
    assert ops[1..] == Instructions(f.rest);
    var kept := WithoutSeparators(ops);
    if f.instr != Op(OP_CODESEPARATOR) {
      assert kept[1..] == WithoutSeparators(Instructions(f.rest));
    } else {
      assert kept == WithoutSeparators(Instructions(f.rest));
    }
  }

  lemma {:induction false} StrippedNoLonger(s: seq<Byte>)
    ensures |Stripped(s)| <= |s|
    decreases |s|
  {
    if ParseFirst(s).FirstInstr? {
      StrippedStep(s);
      FirstCanonical(s);
      StrippedNoLonger(ParseFirst(s).rest);
    }
  }

  // ---------------------------------------------------------------- laws

  lemma {:induction false} SizedPushRoundTrip(width: nat, d: seq<Byte>, rest: seq<Byte>)
    requires |d| < Pow256(width)
    ensures SizedPush(width, (ToLE(|d|, width) + d) + rest) == Pushed(d, rest)
  {
    FromToLE(|d|, width);
    var b := (ToLE(|d|, width) + d) + rest;
    assert b[..width] == ToLE(|d|, width);
    assert b[width..width + |d|] == d;
  }

  lemma {:induction false} SizedPushCanonical(width: nat, b: seq<Byte>)
    requires SizedPush(width, b).Pushed?
    ensures var p := SizedPush(width, b); b == (ToLE(|p.data|, width) + p.data) + p.rest
  {
    ToFromLE(b[..width]);
  }

  lemma {:induction false} FirstRoundTrip(i: Instr, rest: seq<Byte>)
    requires i.Valid()
    ensures ParseFirst(EncodeInstr(i) + rest) == FirstInstr(i, rest)
  {
    match i {
      case Direct(d) =>
        assert (EncodeInstr(i) + rest)[1..] == d + rest;
      case Sized(w, d) =>
        Assoc([SizedOpcode(w)], ToLE(|d|, w) + d, rest);
        SizedRoundTrip(w, d, (ToLE(|d|, w) + d) + rest, rest);
      case Op(c) =>
    }
  }

  lemma {:induction false} SizedRoundTrip(w: nat, d: seq<Byte>, tail: seq<Byte>, rest: seq<Byte>)
    requires Sized(w, d).Valid()
    requires tail == (ToLE(|d|, w) + d) + rest
    ensures ParseFirst([SizedOpcode(w)] + tail) == FirstInstr(Sized(w, d), rest)
  {
    SizedPushRoundTrip(w, d, rest);
    assert ([SizedOpcode(w)] + tail)[1..] == tail;
  }

  lemma {:induction false} FirstCanonical(s: seq<Byte>)
    requires ParseFirst(s).FirstInstr?
    ensures s == EncodeInstr(ParseFirst(s).instr) + ParseFirst(s).rest
  {
    if 0x4c <= s[0] <= 0x4e {
      SizedPushCanonical(SizeWidth(s[0]), s[1..]);
    }
  }

  /** Assembling and parsing are inverse: instructions survive, and complete scripts survive. */
  lemma {:induction false} AssembleRoundTrip(ops: seq<Instr>)
    requires AllValid(ops)
    ensures Instructions(Assemble(ops)) == ops && Complete(Assemble(ops))
  {
    if ops != [] {
      var s, tail := Assemble(ops), Assemble(ops[1..]);
      AssembleRoundTrip(ops[1..]);
      FirstRoundTrip(ops[0], tail);
      assert ParseFirst(s) == FirstInstr(ops[0], tail);
      assert Instructions(s) == [ops[0]] + Instructions(tail);
      assert ops == [ops[0]] + ops[1..];
    }
  }

  lemma {:induction false} CompleteAssembles(s: seq<Byte>)
    requires Complete(s)
    ensures Assemble(Instructions(s)) == s
    decreases |s|
  {
    if s != [] {
      FirstCanonical(s);
      CompleteAssembles(ParseFirst(s).rest);
      assert Instructions(s)[1..] == Instructions(ParseFirst(s).rest);
    }
  }

  lemma {:induction false} FilterFacts(ops: seq<Instr>)
    ensures WithoutSeparators(WithoutSeparators(ops)) == WithoutSeparators(ops)
    ensures Op(OP_CODESEPARATOR) !in WithoutSeparators(ops)
    ensures Op(OP_CODESEPARATOR) !in ops <==> WithoutSeparators(ops) == ops
  {
    if ops != [] {
      FilterFacts(ops[1..]);
      var w := WithoutSeparators(ops[1..]);
      assert ops == [ops[0]] + ops[1..];
      if ops[0] == Op(OP_CODESEPARATOR) {
        assert WithoutSeparators(ops) == w;
      } else {
        assert WithoutSeparators(ops)[1..] == w;
      }
    }
  }

  /** Removal is a filter on instructions: every push keeps its bytes, separators are all gone. */
  lemma {:induction false} StrippingFiltersInstructions(s: seq<Byte>)
    ensures Instructions(Stripped(s)) == WithoutSeparators(Instructions(s))
    ensures Complete(Stripped(s))
    ensures Op(OP_CODESEPARATOR) !in Instructions(Stripped(s))
    ensures Stripped(Stripped(s)) == Stripped(s)
  {
    AssembleRoundTrip(WithoutSeparators(Instructions(s)));
    FilterFacts(Instructions(s));
  }

  /** Exactly the complete scripts without a separator instruction are left alone. */
  lemma {:induction false} StrippedIsIdentityIff(s: seq<Byte>)
    ensures Stripped(s) == s <==> Complete(s) && Op(OP_CODESEPARATOR) !in Instructions(s)
  {
    FilterFacts(Instructions(s));
    if Stripped(s) == s {
      StrippingFiltersInstructions(s);
    }
    if Complete(s) {
      CompleteAssembles(s);
    }
  }

  function P2pkhScript(hash: seq<Byte>): (s: seq<Byte>)
    requires |hash| == 20
  {
    [0x76, 0xa9, 0x14] + hash + [0x88, 0xac]
  }

  function P2pkhPubkeyHash(script: seq<Byte>): (r: Option<seq<Byte>>)
    ensures r.Some? ==> |r.value| == 20 && script == P2pkhScript(r.value)
    ensures r.None? ==> forall h: seq<Byte> | |h| == 20 :: script != P2pkhScript(h)
  {
    if |script| == 25 && script[0] == 0x76 && script[1] == 0xa9 && script[2] == 0x14
       && script[23] == 0x88 && script[24] == 0xac
    then Some(script[3..23])
    else None
  }

  /** A standard output script is never altered, whatever bytes its hash holds. */
  lemma {:induction false} StrippedP2pkh(hash: seq<Byte>)
    requires |hash| == 20
    ensures Stripped(P2pkhScript(hash)) == P2pkhScript(hash)
  {
    var push: seq<Byte> := EncodeInstr(Direct(hash));
    P2pkhParts(hash);
    assert Stripped([]) == [];
    KeepsInstr(Op(0xac), []);
    KeepsInstr(Op(0x88), [0xac]);
    KeepsInstr(Direct(hash), [0x88] + [0xac]);
    KeepsInstr(Op(0xa9), push + ([0x88] + [0xac]));
    KeepsInstr(Op(0x76), [0xa9] + (push + ([0x88] + [0xac])));
  }

  lemma {:induction false} P2pkhParts(hash: seq<Byte>)
    requires |hash| == 20
    ensures P2pkhScript(hash) == [0x76] + ([0xa9] + (EncodeInstr(Direct(hash)) + ([0x88] + [0xac])))
    ensures [0xac] + [] == [0xac as Byte]
  {
    assert EncodeInstr(Direct(hash)) == [0x14] + hash;
  }

  lemma {:induction false} KeepsInstr(i: Instr, rest: seq<Byte>)
    requires i.Valid() && i != Op(OP_CODESEPARATOR)
    ensures Stripped(EncodeInstr(i) + rest) == EncodeInstr(i) + Stripped(rest)
  {
    FirstRoundTrip(i, rest);
    StrippedStep(EncodeInstr(i) + rest);
  }

  // ---------------------------------------------------------------- scriptSig

  /** Minimal-push rules of the strict instruction iterator. */
  predicate Minimal(i: Instr) {
    match i
    case Direct(d) => !(|d| == 1 && (d[0] == 0x81 || 1 <= d[0] <= 16))
    case Sized(w, d) => |d| >= if w == 1 then 76 else if w == 2 then 0x100 else 0x1_0000
    case Op(_) => true
  }

  /** The bytes an instruction pushes; OP_0 pushes no bytes, other opcodes are skipped. */
  function OwnPushes(i: Instr): seq<seq<Byte>> {
    if !i.Op? then [i.data] else if i.code == 0 then [[]] else []
  }

  /** All pushes of a script in order; none if an instruction is broken or not minimal. */
  function MinimalPushes(s: seq<Byte>): Option<seq<seq<Byte>>>
    decreases |s|
  {
    if s == [] then Some([])
    else
      match ParseFirst(s)
      case NoInstr => None
      case FirstInstr(i, rest) =>
        if !Minimal(i) then None
        else
          match MinimalPushes(rest)
          case None => None
          case Some(later) => Some(OwnPushes(i) + later)
  }

  /** Two minimal pushes, whatever non-push opcodes stand between them. */
  function SigAndKey(scriptSig: seq<Byte>): Result<(seq<Byte>, seq<Byte>)> {
    match MinimalPushes(scriptSig)
    case None => Failure(BadScriptSig)
    case Some(p) => if |p| != 2 then Failure(BadScriptSig) else Success((p[0], p[1]))
  }

  method ParseP2pkhScriptSig(scriptSig: seq<Byte>) returns (r: Result<(seq<Byte>, seq<Byte>)>)
    ensures r == SigAndKey(scriptSig)
  {
    var pushes: seq<seq<Byte>> := [];
    var rest := scriptSig;
    assert forall later: seq<seq<Byte>> :: [] + later == later;
    while rest != []
      invariant match MinimalPushes(rest)
                case None => MinimalPushes(scriptSig).None?
                case Some(later) => MinimalPushes(scriptSig) == Some(pushes + later)
      decreases |rest|
    {
      var first := ParseFirst(rest);
      if first.NoInstr? || !Minimal(first.instr) {
        return Failure(BadScriptSig);
      }
      var own := OwnPushes(first.instr);
      if MinimalPushes(first.rest).Some? {
        assert pushes + (own + MinimalPushes(first.rest).value) == (pushes + own) + MinimalPushes(first.rest).value;
      }
      pushes := pushes + own;
      rest := first.rest;
    }
    assert MinimalPushes(scriptSig) == Some(pushes + []);
    if |pushes| != 2 {
      return Failure(BadScriptSig);
    }
    return Success((pushes[0], pushes[1]));
  }

  /** A script builder's push of at most 75 bytes. */
  function PushSlice(d: seq<Byte>): seq<Byte>
    requires |d| <= 75
  {
    [|d| as Byte] + d
  }

  /** What the builder wrote, the strict parser reads back. */
  lemma {:induction false} ScriptSigRoundTrip(sig: seq<Byte>, key: seq<Byte>)
    requires 2 <= |sig| <= 75 && 2 <= |key| <= 75
    ensures SigAndKey(PushSlice(sig) + PushSlice(key)) == Success((sig, key))
  {
    FirstRoundTrip(Direct(sig), PushSlice(key));
    FirstRoundTrip(Direct(key), []);
    assert PushSlice(key) + [] == PushSlice(key);
    assert MinimalPushes([]) == Some([]);
    assert OwnPushes(Direct(key)) + [] == [key];
    assert MinimalPushes(PushSlice(key)) == Some([key]);
    assert OwnPushes(Direct(sig)) + [key] == [sig, key];
  }

  // ---------------------------------------------------------------- scripts, instruction by instruction

  const OP_DUP: Byte := 0x76
  const OP_HASH160: Byte := 0xa9
  const OP_EQUALVERIFY: Byte := 0x88
  const OP_CHECKSIG: Byte := 0xac

  /** The standard output script: duplicate, hash, push the expected hash, compare, check the signature. */
  lemma {:induction false} P2pkhInstructions(hash: seq<Byte>)
    requires |hash| == 20
    ensures Complete(P2pkhScript(hash))
    ensures Instructions(P2pkhScript(hash))
         == [Op(OP_DUP), Op(OP_HASH160), Direct(hash), Op(OP_EQUALVERIFY), Op(OP_CHECKSIG)]
  {
    var ops := [Op(OP_DUP), Op(OP_HASH160), Direct(hash), Op(OP_EQUALVERIFY), Op(OP_CHECKSIG)];
    P2pkhParts(hash);
    assert ops[1..] == [Op(OP_HASH160), Direct(hash), Op(OP_EQUALVERIFY), Op(OP_CHECKSIG)];
    assert ops[1..][1..] == [Direct(hash), Op(OP_EQUALVERIFY), Op(OP_CHECKSIG)];
    assert ops[1..][1..][1..] == [Op(OP_EQUALVERIFY), Op(OP_CHECKSIG)];
    assert [Op(OP_EQUALVERIFY), Op(OP_CHECKSIG)][1..] == [Op(OP_CHECKSIG)];
    assert Assemble([Op(OP_CHECKSIG)]) == [OP_CHECKSIG] + Assemble([]);
    assert Assemble([Op(OP_EQUALVERIFY), Op(OP_CHECKSIG)]) == [OP_EQUALVERIFY] + Assemble([Op(OP_CHECKSIG)]);
    assert Assemble(ops[1..][1..]) == EncodeInstr(Direct(hash)) + Assemble([Op(OP_EQUALVERIFY), Op(OP_CHECKSIG)]);
    assert Assemble(ops) == P2pkhScript(hash);
    AssembleRoundTrip(ops);
  }

  /** The separator is the byte 0xab. */
  lemma {:induction false} SeparatorGoes()
    ensures Stripped([0x76, 0xab, 0xa9]) == [0x76, 0xa9]
  {
    assert Stripped([]) == [];
    KeepsInstr(Op(0xa9), []);
    StrippedStep([0xab, 0xa9]);
    assert [0xab as Byte, 0xa9][1..] == [0xa9];
    KeepsInstr(Op(0x76), [0xab, 0xa9]);
  }

  /** The fewest bytes in which data can be pushed; a few single bytes have opcodes of their own. */
  function ShortestPush(d: seq<Byte>): nat {
    if d == [] then 1
    else if |d| == 1 && (1 <= d[0] <= 16 || d[0] == 0x81) then 1
    else if |d| <= 75 then 1 + |d|
    else if |d| <= 255 then 2 + |d|
    else if |d| <= 65_535 then 3 + |d|
    else 5 + |d|
  }

  /** The strict iterator's rule: a push is minimal exactly if no shorter one pushes the same. */
  lemma {:induction false} MinimalMeansShortest(i: Instr)
    requires i.Valid() && !i.Op?
    ensures Minimal(i) <==> |EncodeInstr(i)| == ShortestPush(i.data)
  {
    Pow256Values();
  }

  /** What the instructions of a script push, in order. */
  function Pushes(ops: seq<Instr>): seq<seq<Byte>> {
    if ops == [] then [] else OwnPushes(ops[0]) + Pushes(ops[1..])
  }

  predicate AllMinimal(ops: seq<Instr>) {
    ops == [] || (Minimal(ops[0]) && AllMinimal(ops[1..]))
  }

  lemma {:induction false} MinimalPushesIff(s: seq<Byte>)
    ensures MinimalPushes(s).Some? <==> Complete(s) && AllMinimal(Instructions(s))
    ensures MinimalPushes(s).Some? ==> MinimalPushes(s).value == Pushes(Instructions(s))
    decreases |s|
  {
    if ParseFirst(s).FirstInstr? {
      MinimalPushesIff(ParseFirst(s).rest);
      assert Instructions(s)[1..] == Instructions(ParseFirst(s).rest);
    }
  }

  /** The strict parser accepts exactly the complete scripts of minimal pushes that push two things. */
  lemma {:induction false} SigAndKeyIff(s: seq<Byte>, sig: seq<Byte>, key: seq<Byte>)
    ensures SigAndKey(s) == Success((sig, key)) <==>
      Complete(s) && AllMinimal(Instructions(s)) && Pushes(Instructions(s)) == [sig, key]
  {
    MinimalPushesIff(s);
  }
}
