/** The part of a wallet's keystore record that indexing reads and writes. */
module Keystore {
  import opened Bytes
  import opened Hex
  import opened Outcome

  datatype Progress = Progress(
    precacheOffset: nat, gapExternal: nat, externalDone: bool, gapInternal: nat, internalDone: bool)

  datatype Record = Record(scanComplete: bool, funded: seq<string>, progress: Progress)

  const NOTHING_SCANNED := Progress(0, 0, false, 0, false)
  const ALL_SCANNED := Progress(0, 0, true, 0, true)

  /** The positions as loaded: an internal position implies that the external chain was finished. */
  function Repaired(p: Progress): Progress {
    if !p.externalDone && p.gapInternal > 0 then p.(externalDone := true) else p
  }

  predicate Holds(funded: seq<string>, script: string) {
    exists k :: 0 <= k < |funded| && EqIgnoreAsciiCase(funded[k], script)
  }

  function Registered(funded: seq<string>, script: string): seq<string> {
    if Holds(funded, script) then funded else funded + [script]
  }

  /** Loading repairs one thing: with an internal position the external chain counts as finished. */
  lemma {:induction false} RepairedMeans(p: Progress)
    ensures var r := Repaired(p);
            && r.gapExternal == p.gapExternal && r.gapInternal == p.gapInternal
            && r.internalDone == p.internalDone && r.precacheOffset == p.precacheOffset
            && (r.externalDone <==> p.externalDone || p.gapInternal >= 1)
            && Repaired(r) == r
  {
  }

  /** A script in hex is held exactly if an entry of the list is hex for the same bytes. */
  lemma {:induction false} HoldsMeans(funded: seq<string>, script: seq<Byte>)
    ensures Holds(funded, HexEncode(script)) <==>
      exists k :: 0 <= k < |funded| && HexDecode(funded[k]) == Some(script)
  {
    forall k | 0 <= k < |funded|
      ensures EqIgnoreAsciiCase(funded[k], HexEncode(script)) <==> HexDecode(funded[k]) == Some(script)
    {
      EqIgnoreSymmetric(funded[k], HexEncode(script));
      SameHexLetters(script, funded[k]);
    }
  }

  /** Afterwards the script is held; one entry at most is added, behind the others, and only if no letter case was. */
  lemma {:induction false} RegisteredMeans(funded: seq<string>, script: string)
    ensures var r := Registered(funded, script);
            && funded <= r && Holds(r, script)
            && |r| == |funded| + (if Holds(funded, script) then 0 else 1)
            && forall x :: x in r ==> x in funded || x == script
  {
    RegisteredHolds(funded, script);
  }

  /** Registering scripts from the k-th on, where an empty one is skipped and a failed write loses one. */
  function AllRegistered(funded: seq<string>, scripts: seq<string>, registers: nat -> bool, k: nat): seq<string>
    requires k <= |scripts|
    decreases |scripts| - k
  {
    if k == |scripts| then funded
    else
      var next := if scripts[k] != "" && registers(k) then Registered(funded, scripts[k]) else funded;
      AllRegistered(next, scripts, registers, k + 1)
  }

  lemma {:induction false} AllRegisteredGrows(funded: seq<string>, scripts: seq<string>, registers: nat -> bool, k: nat)
    requires k <= |scripts|
    ensures funded <= AllRegistered(funded, scripts, registers, k)
    decreases |scripts| - k
  {
    if k < |scripts| {
      AllRegisteredGrows(if scripts[k] != "" && registers(k) then Registered(funded, scripts[k]) else funded,
                         scripts, registers, k + 1);
    }
  }

  /** Afterwards every script whose write succeeds is held, in one letter case or the other. */
  lemma {:induction false} AllRegisteredHolds(funded: seq<string>, scripts: seq<string>, registers: nat -> bool, k: nat,
                                              i: nat)
    requires k <= i < |scripts| && scripts[i] != "" && registers(i)
    ensures Holds(AllRegistered(funded, scripts, registers, k), scripts[i])
    decreases i - k
  {
    var next := if scripts[k] != "" && registers(k) then Registered(funded, scripts[k]) else funded;
    if k < i {
      AllRegisteredHolds(next, scripts, registers, k + 1, i);
    } else {
      AllRegisteredGrows(next, scripts, registers, k + 1);
      assert Holds(next, scripts[i]) by { RegisteredHolds(funded, scripts[i]); }
      HoldsMore(next, AllRegistered(next, scripts, registers, k + 1), scripts[i]);
    }
  }

  /** Nothing is added but scripts whose writes succeed. */
  lemma {:induction false} AllRegisteredAdds(funded: seq<string>, scripts: seq<string>, registers: nat -> bool, k: nat)
    requires k <= |scripts|
    ensures forall x :: x in AllRegistered(funded, scripts, registers, k) ==>
      x in funded || exists i :: k <= i < |scripts| && scripts[i] == x && x != "" && registers(i)
    decreases |scripts| - k
  {
    if k < |scripts| {
      var next := if scripts[k] != "" && registers(k) then Registered(funded, scripts[k]) else funded;
      AllRegisteredAdds(next, scripts, registers, k + 1);
    }
  }

  lemma {:induction false} RegisteredHolds(funded: seq<string>, script: string)
    ensures Holds(Registered(funded, script), script)
  {
    var r := Registered(funded, script);
    assert !Holds(funded, script) ==> EqIgnoreAsciiCase(r[|r| - 1], script);
  }

  lemma {:induction false} HoldsMore(funded: seq<string>, more: seq<string>, script: string)
    requires funded <= more && Holds(funded, script)
    ensures Holds(more, script)
  {
    var k :| 0 <= k < |funded| && EqIgnoreAsciiCase(funded[k], script);
    assert more[k] == funded[k];
  }

  /** Each method loads the record, assigns fields, and saves it; a save that fails leaves the record as it was. */
  class KeystoreService {
    var scanComplete: bool
    var funded: seq<string>
    var precacheOffset: nat
    var gapExternal: nat
    var externalDone: bool
    var gapInternal: nat
    var internalDone: bool

    function Stored(): Record
      reads this
    {
      Record(scanComplete, funded, Progress(precacheOffset, gapExternal, externalDone, gapInternal, internalDone))
    }

    constructor ()
      ensures Stored() == Record(false, [], NOTHING_SCANNED)
    {
      scanComplete, funded := false, [];
      precacheOffset, gapExternal, externalDone, gapInternal, internalDone := 0, 0, false, 0, false;
    }

    method IndexingProgress() returns (p: Progress)
      ensures p == Repaired(Stored().progress)
    {
      p := Progress(precacheOffset, gapExternal, externalDone, gapInternal, internalDone);
      if !p.externalDone && p.gapInternal > 0 {
        p := p.(externalDone := true);
      }
    }

    method SetIndexingProgress(p: Progress, saves: bool) returns (ok: bool)
      modifies this
      ensures ok == (saves || old(Stored()).progress == p)
      ensures Stored() == if ok then old(Stored()).(progress := p) else old(Stored())
    {
      if precacheOffset == p.precacheOffset && gapExternal == p.gapExternal && externalDone == p.externalDone
         && gapInternal == p.gapInternal && internalDone == p.internalDone {
        return true;
      }
      if saves {
        precacheOffset, gapExternal, externalDone := p.precacheOffset, p.gapExternal, p.externalDone;
        gapInternal, internalDone := p.gapInternal, p.internalDone;
      }
      return saves;
    }

    method SetFundedScriptHexes(scripts: seq<string>, saves: bool) returns (ok: bool)
      modifies this
      ensures ok == saves
      ensures Stored() == if saves then old(Stored()).(funded := scripts) else old(Stored())
    {
      if saves {
        funded := scripts;
      }
      return saves;
    }

    method RegisterFundedScriptHex(script: string, saves: bool) returns (ok: bool)
      modifies this
      ensures ok == (saves || Holds(old(funded), script))
      ensures Stored() == if ok then old(Stored()).(funded := Registered(old(funded), script)) else old(Stored())
    {
      var found, k := false, 0;
      while k < |funded| && !found
        invariant 0 <= k <= |funded|
        invariant found <==> exists j :: 0 <= j < k && EqIgnoreAsciiCase(funded[j], script)
      {
        found := EqIgnoreAsciiCase(funded[k], script);
        k := k + 1;
      }
      if found {
        return true;
      }
      if saves {
        funded := funded + [script];
      }
      return saves;
    }

    /** One registration after another; writes that fail are ignored. */
    method RegisterAll(scripts: seq<string>, registers: nat -> bool)
      modifies this
      ensures Stored() == old(Stored()).(funded := AllRegistered(old(funded), scripts, registers, 0))
    {
      ghost var before := Stored();
      var k := 0;
      while k < |scripts|
        invariant 0 <= k <= |scripts|
        invariant Stored() == before.(funded := funded)
        invariant AllRegistered(before.funded, scripts, registers, 0) == AllRegistered(funded, scripts, registers, k)
      {
        if scripts[k] != "" {
          var _ := RegisterFundedScriptHex(scripts[k], registers(k));
        }
        k := k + 1;
      }
    }

    method MarkAddressScanComplete(saves: bool) returns (ok: bool)
      modifies this
      ensures ok == saves
      ensures Stored() == if saves then Record(true, old(funded), ALL_SCANNED) else old(Stored())
    {
      if saves {
        scanComplete := true;
        precacheOffset, gapExternal, externalDone, gapInternal, internalDone := 0, 0, true, 0, true;
      }
      return saves;
    }

    method MarkAddressScanIncomplete(saves: bool) returns (ok: bool)
      modifies this
      ensures ok == saves
      ensures Stored() == if saves then Record(false, old(funded), NOTHING_SCANNED) else old(Stored())
    {
      if saves {
        scanComplete := false;
        precacheOffset, gapExternal, externalDone, gapInternal, internalDone := 0, 0, false, 0, false;
      }
      return saves;
    }

    /** A new seed replaces the whole record. */
    method ImportWallet(saves: bool) returns (ok: bool)
      modifies this
      ensures ok == saves
      ensures Stored() == if saves then Record(false, [], NOTHING_SCANNED) else old(Stored())
    {
      if saves {
        scanComplete, funded := false, [];
        precacheOffset, gapExternal, externalDone, gapInternal, internalDone := 0, 0, false, 0, false;
      }
      return saves;
    }
  }
}
