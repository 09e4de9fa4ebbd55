/** Refreshing the chosen coins from their parent transactions before signing. */
module UtxoPrep {
  import opened Bytes
  import opened Hex
  import opened Outcome
  import opened ScriptCode
  import opened Wallet
  import opened Wire

  /** The chain's answer to a raw-transaction request, and to a broadcast. */
  datatype Backend = Backend(rawTx: string -> Result<string>, broadcast: string -> Result<string>)

  function ReverseDisplayTxid(txid: string): Option<string> {
    match HexDecode(Trim(txid))
    case None => None
    case Some(bs) => if |bs| != 32 then None else Some(HexEncode(Reversed(bs)))
  }

  /** The id as given, then byte-reversed if that is another id. */
  function ParentTxidVariants(txid: string): seq<string> {
    var trimmed := Trim(txid);
    var alt := ReverseDisplayTxid(trimmed);
    if alt.Some? && !EqIgnoreAsciiCase(trimmed, alt.value) then [trimmed, alt.value] else [trimmed]
  }

  function DecodeParent(hex: string): Result<seq<Byte>> {
    match HexDecode(hex)
    case None => Failure(BadHex)
    case Some(bytes) => Success(bytes)
  }

  /** The first variant the chain knows; the last error if it knows none. */
  function ParentBytes(b: Backend, txid: string): Result<seq<Byte>> {
    var variants := ParentTxidVariants(txid);
    var first := b.rawTx(variants[0]);
    if first.Success? then DecodeParent(first.value)
    else if |variants| == 1 then Failure(first.error)
    else
      var hex :- b.rawTx(variants[1]);
      DecodeParent(hex)
  }

  method FetchParentTxBytes(b: Backend, txid: string) returns (r: Result<seq<Byte>>)
    ensures r == ParentBytes(b, txid)
  {
    var variants := ParentTxidVariants(txid);
    var lastError := ParentLookupFailed;
    for i := 0 to |variants|
      invariant forall j :: 0 <= j < i ==> b.rawTx(variants[j]).Failure?
      invariant i > 0 ==> lastError == b.rawTx(variants[i - 1]).error
    {
      var answer := b.rawTx(variants[i]);
      if answer.Success? {
        var bytes := HexDecode(answer.value);
        if bytes.None? {
          return Failure(BadHex);
        }
        return Success(bytes.value);
      }
      lastError := answer.error;
    }
    return Failure(lastError);
  }

  /** An unsigned amount reinterpreted as a signed one. */
  function AsI64(v: U64): I64 {
    if v < TWO_63 then v else v - TWO_64
  }

  /** Value, script and id as the parent transaction has them. */
  function FromParent(c: Crypto, u: Utxo, bytes: seq<Byte>): Result<Utxo> {
    match DecodeTx(bytes)
    case Err => Failure(DecodeFailed)
    case Ok(parent, _) =>
      if u.vout >= |parent.outputs| then Failure(MissingVout)
      else
        var out := parent.outputs[u.vout];
        var onChain := HexEncode(out.scriptPubKey);
        if !ScriptPaysTo(onChain, u.scriptHex) then Failure(ScriptMismatch)
        else Success(u.(valueSats := AsI64(out.value), txid := DisplayTxid(c.sha256d(bytes)), scriptHex := onChain))
  }

  function NormalizedTxid(txid: string): Result<string> {
    if ParseDisplayTxid(txid).Success? then Success(txid)
    else
      var alt := ReverseDisplayTxid(txid);
      if alt.Some? && ParseDisplayTxid(alt.value).Success? then Success(alt.value) else Failure(BadTxid)
  }

  /** The wallet's own record of a confirmed coin, when the chain cannot show its parent. */
  function FromCache(c: Crypto, u: Utxo): Result<Utxo> {
    if u.address == "" || u.scriptHex == "" then Failure(MissingAddress)
    else
      var script :- AddressToScript(c, u.address);
      var derived := HexEncode(script);
      if !ScriptPaysTo(derived, u.scriptHex) then Failure(ScriptMismatch)
      else
        var txid :- NormalizedTxid(u.txid);
        Success(u.(scriptHex := derived, txid := txid))
  }

  function Refreshed(c: Crypto, b: Backend, u: Utxo): Result<Utxo> {
    match ParentBytes(b, u.txid)
    case Success(bytes) => FromParent(c, u, bytes)
    case Failure(e) => if e == ParentLookupFailed && u.height > 0 then FromCache(c, u) else Failure(e)
  }

  function RefreshAt(c: Crypto, b: Backend, utxos: seq<Utxo>): nat -> Result<Utxo> {
    (k: nat) => if k < |utxos| then Refreshed(c, b, utxos[k]) else Failure(IndexOutOfRange)
  }

  // What a failed step leaves of the coin.

  /** The value is refreshed before the script is compared. */
  function LeftByParent(u: Utxo, bytes: seq<Byte>): Utxo {
    match DecodeTx(bytes)
    case Err => u
    case Ok(parent, _) =>
      if u.vout >= |parent.outputs| then u else u.(valueSats := AsI64(parent.outputs[u.vout].value))
  }

  /** The script is replaced before the id is looked at. */
  function LeftByCache(c: Crypto, u: Utxo): Utxo {
    if u.address == "" || u.scriptHex == "" then u
    else
      match AddressToScript(c, u.address)
      case Failure(_) => u
      case Success(script) =>
        var derived := HexEncode(script);
        if !ScriptPaysTo(derived, u.scriptHex) then u else u.(scriptHex := derived)
  }

  function LeftByRefresh(c: Crypto, b: Backend, u: Utxo): Utxo {
    match ParentBytes(b, u.txid)
    case Success(bytes) => LeftByParent(u, bytes)
    case Failure(e) => if e == ParentLookupFailed && u.height > 0 then LeftByCache(c, u) else u
  }

  /** Changes one coin in place. */
  method ApplyParentTxToUtxo(c: Crypto, utxos: array<Utxo>, i: nat, bytes: seq<Byte>) returns (r: Result<()>)
    requires i < utxos.Length
    modifies utxos
    ensures forall k :: 0 <= k < utxos.Length && k != i ==> utxos[k] == old(utxos[k])
    ensures match FromParent(c, old(utxos[i]), bytes)
            case Success(u) => r == Success(()) && utxos[i] == u
            case Failure(e) => r == Failure(e) && utxos[i] == LeftByParent(old(utxos[i]), bytes)
  {
    var displayTxid := DisplayTxid(c.sha256d(bytes));
    var parsed := ParseDisplayTxid(displayTxid);
    TxidRoundTrip(c.sha256d(bytes));
    if parsed != Success(c.sha256d(bytes)) {
      return Failure(BadTxid);
    }
    var parent := DecodeTx(bytes);
    if parent.Err? {
      return Failure(DecodeFailed);
    }
    if utxos[i].vout >= |parent.value.outputs| {
      return Failure(MissingVout);
    }
    var out := parent.value.outputs[utxos[i].vout];
    var onChain := HexEncode(out.scriptPubKey);
    if AsI64(out.value) != utxos[i].valueSats {
      utxos[i] := utxos[i].(valueSats := AsI64(out.value));
    }
    if !ScriptPaysTo(onChain, utxos[i].scriptHex) {
      return Failure(ScriptMismatch);
    }
    utxos[i] := utxos[i].(txid := displayTxid);
    utxos[i] := utxos[i].(scriptHex := onChain);
    return Success(());
  }

  method ApplyUtxoFromWalletCache(c: Crypto, utxos: array<Utxo>, i: nat) returns (r: Result<()>)
    requires i < utxos.Length
    modifies utxos
    ensures forall k :: 0 <= k < utxos.Length && k != i ==> utxos[k] == old(utxos[k])
    ensures match FromCache(c, old(utxos[i]))
            case Success(u) => r == Success(()) && utxos[i] == u
            case Failure(e) => r == Failure(e) && utxos[i] == LeftByCache(c, old(utxos[i]))
  {
    if utxos[i].address == "" || utxos[i].scriptHex == "" {
      return Failure(MissingAddress);
    }
    var script :- AddressToScript(c, utxos[i].address);
    var derived := HexEncode(script);
    if !ScriptPaysTo(derived, utxos[i].scriptHex) {
      return Failure(ScriptMismatch);
    }
    utxos[i] := utxos[i].(scriptHex := derived);
    var txid :- NormalizedTxid(utxos[i].txid);
    utxos[i] := utxos[i].(txid := txid);
    return Success(());
  }

  /** One turn of the loop: parent first, the wallet's own record if a confirmed parent cannot be shown. */
  method RefreshInPlace(c: Crypto, b: Backend, utxos: array<Utxo>, i: nat) returns (r: Result<()>)
    requires i < utxos.Length
    modifies utxos
    ensures forall k :: 0 <= k < utxos.Length && k != i ==> utxos[k] == old(utxos[k])
    ensures match Refreshed(c, b, old(utxos[i]))
            case Success(u) => r == Success(()) && utxos[i] == u
            case Failure(e) => r == Failure(e) && utxos[i] == LeftByRefresh(c, b, old(utxos[i]))
  {
    var parent := FetchParentTxBytes(b, utxos[i].txid);
    match parent {
      case Success(bytes) =>
        r := ApplyParentTxToUtxo(c, utxos, i, bytes);
      case Failure(e) =>
        if e != ParentLookupFailed || utxos[i].height == 0 {
          return Failure(e);
        }
        r := ApplyUtxoFromWalletCache(c, utxos, i);
    }
  }

  /** The i-th coin failed: those before it are refreshed, those behind it untouched. */
  ghost predicate StoppedAt(c: Crypto, b: Backend, before: seq<Utxo>, after: seq<Utxo>, i: nat) {
    && i < |before| == |after|
    && (forall k :: 0 <= k < i ==> Refreshed(c, b, before[k]) == Success(after[k]))
    && Refreshed(c, b, before[i]).Failure? && after[i] == LeftByRefresh(c, b, before[i])
    && forall k :: i < k < |before| ==> after[k] == before[k]
  }

  method PrepareUtxosForSigning(c: Crypto, b: Backend, utxos: array<Utxo>) returns (r: Result<()>)
    modifies utxos
    ensures match Collect(utxos.Length, RefreshAt(c, b, old(utxos[..])), 0)
            case Success(us) => r == Success(()) && utxos[..] == us
            case Failure(e) => r == Failure(e) && exists i: nat :: StoppedAt(c, b, old(utxos[..]), utxos[..], i)
  {
    ghost var before := utxos[..];
    ghost var n, step := utxos.Length, RefreshAt(c, b, before);
    for i := 0 to utxos.Length
      invariant forall k: nat :: k < i ==> step(k) == Success(utxos[k])
      invariant forall k :: i <= k < utxos.Length ==> utxos[k] == before[k]
    {
      var refreshed := RefreshInPlace(c, b, utxos, i);
      if refreshed.Failure? {
        CollectFails(n, step, 0, i);
        Stopped(c, b, before, utxos[..], i, step);
        return Failure(refreshed.error);
      }
    }
    CollectSucceeds(n, step, utxos[..]);
    return Success(());
  }

  lemma {:induction false} Stopped(c: Crypto, b: Backend, before: seq<Utxo>, after: seq<Utxo>, i: nat,
                                   step: nat -> Result<Utxo>)
    requires i < |before| == |after| && step == RefreshAt(c, b, before)
    requires forall k :: 0 <= k < i ==> step(k) == Success(after[k])
    requires Refreshed(c, b, before[i]).Failure? && after[i] == LeftByRefresh(c, b, before[i])
    requires forall k :: i < k < |before| ==> after[k] == before[k]
    ensures StoppedAt(c, b, before, after, i)
  {
    forall k | 0 <= k < i
      ensures Refreshed(c, b, before[k]) == Success(after[k])
    {
      assert step(k) == Success(after[k]);
    }
  }

  /**
   * A coin refreshed from its parent has the parent output's value and script and the parent's id,
   * and its script is the one the wallet already had.
   */
  lemma {:induction false} RefreshedFromParent(c: Crypto, u: Utxo, bytes: seq<Byte>)
    requires FromParent(c, u, bytes).Success?
    ensures var r, parent := FromParent(c, u, bytes).value, DecodeTx(bytes).value;
            && u.vout < |parent.outputs| && r.vout == u.vout && r.address == u.address
            && r == u.(txid := r.txid, valueSats := r.valueSats, scriptHex := r.scriptHex)
            && r.valueSats == (if parent.outputs[u.vout].value < 0x8000_0000_0000_0000 then parent.outputs[u.vout].value
                               else parent.outputs[u.vout].value - 0x1_0000_0000_0000_0000)
            && HexDecode(Trim(r.scriptHex)) == Some(parent.outputs[u.vout].scriptPubKey)
            && HexDecode(Trim(u.scriptHex)) == Some(parent.outputs[u.vout].scriptPubKey)
            && ParseDisplayTxid(r.txid) == Success(c.sha256d(bytes))
  {
    var script := DecodeTx(bytes).value.outputs[u.vout].scriptPubKey;
    ScriptPaysToMeansEqual(script, u.scriptHex);
    TrimHex(script);
    HexRoundTrip(script);
    TxidRoundTrip(c.sha256d(bytes));
  }

  /** A coin is refreshed from a parent exactly if that decodes, has the output, and pays the script the coin has. */
  lemma {:induction false} FromParentIff(c: Crypto, u: Utxo, bytes: seq<Byte>)
    ensures FromParent(c, u, bytes).Success? <==>
      && DecodeTx(bytes).Ok? && u.vout < |DecodeTx(bytes).value.outputs|
      && HexDecode(Trim(u.scriptHex)) == Some(DecodeTx(bytes).value.outputs[u.vout].scriptPubKey)
  {
    if DecodeTx(bytes).Ok? && u.vout < |DecodeTx(bytes).value.outputs| {
      ScriptPaysToMeansEqual(DecodeTx(bytes).value.outputs[u.vout].scriptPubKey, u.scriptHex);
    }
  }

  /** The bytes that an id shows, if it shows 32. */
  function IdBytes(txid: string): Option<Hash256> {
    match HexDecode(txid)
    case None => None
    case Some(bs) => if |bs| == 32 then Some(bs) else None
  }

  /**
   * Which question is asked: the trimmed id, and if the chain does not know it, and the id shows 32 bytes that
   * are not the same backwards, the id that shows them backwards. The first answer counts, or the last error.
   */
  lemma {:induction false} ParentBytesMeans(b: Backend, txid: string)
    ensures var id := Trim(txid);
            var backwards := IdBytes(id).Some? && Reversed(IdBytes(id).value) != IdBytes(id).value;
            ParentBytes(b, txid) ==
            if b.rawTx(id).Success? then DecodeParent(b.rawTx(id).value)
            else if !backwards then Failure(b.rawTx(id).error)
            else
              var other := b.rawTx(HexEncode(Reversed(IdBytes(id).value)));
              if other.Success? then DecodeParent(other.value) else Failure(other.error)
  {
    var id := Trim(txid);
    TrimTwice(txid);
    if IdBytes(id).Some? {
      var bs := IdBytes(id).value;
      SameHexLetters(Reversed(bs), id);
      assert EqIgnoreAsciiCase(id, HexEncode(Reversed(bs))) <==> EqIgnoreAsciiCase(HexEncode(Reversed(bs)), id);
    }
  }

  /** An id that parses is kept; one that only parses after trimming is shown backwards; any other is an error. */
  lemma {:induction false} NormalizedMeans(txid: string)
    ensures NormalizedTxid(txid) ==
      if IdBytes(txid).Some? then Success(txid)
      else if IdBytes(Trim(txid)).Some? then Success(HexEncode(Reversed(IdBytes(Trim(txid)).value)))
      else Failure(BadTxid)
  {
    if IdBytes(Trim(txid)).Some? {
      HexRoundTrip(Reversed(IdBytes(Trim(txid)).value));
    }
  }

  /** The wallet's own record: it has the coin's address, its script is that of the address, and its id can be read. */
  ghost predicate HasRecord(c: Crypto, u: Utxo) {
    && u.address != "" && u.scriptHex != ""
    && c.decodeAddress(u.address).Some? && |c.decodeAddress(u.address).value| == 20
    && HexDecode(Trim(u.scriptHex)) == Some(P2pkhScript(c.decodeAddress(u.address).value))
    && IdBytes(Trim(u.txid)).Some?
  }

  lemma {:induction false} TrimmedHex(s: string)
    requires HexDecode(s).Some?
    ensures Trim(s) == s
  {
    TrimHex(HexDecode(s).value);
    SameHexLetters(HexDecode(s).value, s);
    var e := HexEncode(HexDecode(s).value);
    HexRoundTrip(HexDecode(s).value);
    if s != "" {
      HexEnds(s);
    }
  }

  lemma {:induction false} HexEnds(s: string)
    requires HexDecode(s).Some? && s != ""
    ensures !IsSpace(s[0]) && !IsSpace(s[|s| - 1])
    decreases |s|
  {
    if |s| > 2 {
      HexEnds(s[2..]);
    }
  }

  /** A coin refreshed from the record keeps everything but the form of its script, and its id if that parses. */
  lemma {:induction false} FromCacheMeans(c: Crypto, u: Utxo)
    ensures FromCache(c, u).Success? <==> HasRecord(c, u)
    ensures FromCache(c, u).Success? ==>
      var r := FromCache(c, u).value;
      && r == u.(txid := r.txid, scriptHex := r.scriptHex)
      && HexDecode(Trim(r.scriptHex)) == HexDecode(Trim(u.scriptHex))
      && (ParseDisplayTxid(u.txid).Success? ==> r.txid == u.txid) && ParseDisplayTxid(r.txid).Success?
  {
    NormalizedMeans(u.txid);
    if IdBytes(u.txid).Some? {
      TrimmedHex(u.txid);
    }
    if c.decodeAddress(u.address).Some? && |c.decodeAddress(u.address).value| == 20 {
      var script := P2pkhScript(c.decodeAddress(u.address).value);
      ScriptPaysToMeansEqual(script, u.scriptHex);
      TrimHex(script);
      HexRoundTrip(script);
    }
    if IdBytes(Trim(u.txid)).Some? {
      HexRoundTrip(Reversed(IdBytes(Trim(u.txid)).value));
    }
  }

  /** A refreshed coin comes from its parent, or, if the chain does not know that and it is confirmed, the record. */
  lemma {:induction false} RefreshedMeans(c: Crypto, b: Backend, u: Utxo, r: Utxo)
    ensures Refreshed(c, b, u) == Success(r) <==>
      || (ParentBytes(b, u.txid).Success? && FromParent(c, u, ParentBytes(b, u.txid).value) == Success(r))
      || (ParentBytes(b, u.txid) == Failure(ParentLookupFailed) && u.height >= 1 && FromCache(c, u) == Success(r))
  {
  }

  /** The parent that the chain shows has this coin. */
  predicate ParentShown(b: Backend, u: Utxo) {
    && ParentBytes(b, u.txid).Success? && DecodeTx(ParentBytes(b, u.txid).value).Ok?
    && u.vout < |DecodeTx(ParentBytes(b, u.txid).value).value.outputs|
  }

  /** The wallet's own record is asked for, and has the coin's script. */
  predicate ScriptOnRecord(c: Crypto, b: Backend, u: Utxo) {
    && ParentBytes(b, u.txid) == Failure(ParentLookupFailed) && u.height >= 1
    && u.address != "" && u.scriptHex != ""
    && c.decodeAddress(u.address).Some? && |c.decodeAddress(u.address).value| == 20
    && HexDecode(Trim(u.scriptHex)) == Some(P2pkhScript(c.decodeAddress(u.address).value))
  }

  /** A step that fails leaves the coin with the value that its parent shows, or with its script written anew. */
  lemma {:induction false} LeftMeans(c: Crypto, b: Backend, u: Utxo)
    ensures var left := LeftByRefresh(c, b, u);
            && left == u.(valueSats := left.valueSats, scriptHex := left.scriptHex)
            && left.valueSats == (if !ParentShown(b, u) then u.valueSats
                                  else AsI64(DecodeTx(ParentBytes(b, u.txid).value).value.outputs[u.vout].value))
            && left.scriptHex == (if !ScriptOnRecord(c, b, u) then u.scriptHex
                                  else HexEncode(P2pkhScript(c.decodeAddress(u.address).value)))
  {
    if c.decodeAddress(u.address).Some? && |c.decodeAddress(u.address).value| == 20 {
      ScriptPaysToMeansEqual(P2pkhScript(c.decodeAddress(u.address).value), u.scriptHex);
    }
  }
}
