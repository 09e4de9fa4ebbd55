/** Manual rescans and the time between them. */
module Rescan {
  import opened Bytes
  import opened KeySet
  import opened Outcome
  import opened UtxoTable

  const LAST_MANUAL_RESCAN_META := "last_manual_rescan_at"
  const PRECACHE_PROBE_COMPLETE_META := "precache_probe_complete"
  const PRECACHE_PROBE_OFFSET_META := "precache_probe_offset"
  const MANUAL_RESCAN_COOLDOWN_SECS: nat := 3600

  /** Text that is not a number is no cooldown. */
  function CooldownRemaining(last: Option<string>, now: U64): nat {
    match last
    case None => 0
    case Some(raw) =>
      match ParseU64(raw)
      case None => 0
      case Some(lastAt) =>
        var elapsed := if now >= lastAt then now - lastAt else 0;
        if elapsed < MANUAL_RESCAN_COOLDOWN_SECS then MANUAL_RESCAN_COOLDOWN_SECS - elapsed else 0
  }

  /** A request for a rescan: how the wallet and the clock stand, and whether the keystore can be written. */
  datatype Attempt = Attempt(unlocked: bool, inFlight: bool, complete: bool, now: U64, saves: bool)

  predicate Admitted(meta: Meta, a: Attempt) {
    && a.unlocked && !a.inFlight
    && (a.complete || LAST_MANUAL_RESCAN_META in meta)
    && CooldownRemaining(MetaAt(meta, LAST_MANUAL_RESCAN_META), a.now) == 0
  }

  /** The time is stored in any case, the probe only reset with the positions. */
  function MetaAfter(meta: Meta, a: Attempt): Meta {
    if !Admitted(meta, a) then meta
    else
      var stamped := meta[LAST_MANUAL_RESCAN_META := Decimal(a.now)];
      if !a.saves then stamped
      else stamped[PRECACHE_PROBE_COMPLETE_META := "0"][PRECACHE_PROBE_OFFSET_META := "0"]
  }

  function MetaAfterAll(meta: Meta, attempts: seq<Attempt>, n: nat): Meta
    requires n <= |attempts|
  {
    if n == 0 then meta else MetaAfter(MetaAfterAll(meta, attempts, n - 1), attempts[n - 1])
  }

  /** A rescan that was admitted at this time is remembered as the last one, or a later one is. */
  ghost predicate StampedSince(meta: Meta, since: U64) {
    exists at: U64 :: at >= since && MetaAt(meta, LAST_MANUAL_RESCAN_META) == Some(Decimal(at))
  }

  /** After an admitted attempt, whether or not it could reset the positions, the next one has to wait. */
  lemma {:induction false} AdmittedStamps(meta: Meta, a: Attempt)
    requires Admitted(meta, a)
    ensures StampedSince(MetaAfter(meta, a), a.now)
  {
    assert MetaAt(MetaAfter(meta, a), LAST_MANUAL_RESCAN_META) == Some(Decimal(a.now));
  }

  lemma {:induction false} StampWaits(meta: Meta, since: U64, a: Attempt)
    requires StampedSince(meta, since)
    ensures Admitted(meta, a) ==> a.now >= since + MANUAL_RESCAN_COOLDOWN_SECS
    ensures StampedSince(MetaAfter(meta, a), since)
  {
    var at: U64 :| at >= since && MetaAt(meta, LAST_MANUAL_RESCAN_META) == Some(Decimal(at));
    U64RoundTrip(at);
    if Admitted(meta, a) {
      AdmittedStamps(meta, a);
    }
  }

  lemma {:induction false} StampLasts(meta: Meta, attempts: seq<Attempt>, i: nat, j: nat)
    requires i < j <= |attempts| && Admitted(MetaAfterAll(meta, attempts, i), attempts[i])
    ensures StampedSince(MetaAfterAll(meta, attempts, j), attempts[i].now)
    decreases j
  {
    if j == i + 1 {
      AdmittedStamps(MetaAfterAll(meta, attempts, i), attempts[i]);
    } else {
      StampLasts(meta, attempts, i, j - 1);
      StampWaits(MetaAfterAll(meta, attempts, j - 1), attempts[i].now, attempts[j - 1]);
    }
  }

  /** Over any attempts, however the clock jumps, two admitted ones are an hour of clock time apart. */
  lemma {:induction false} RescansAreApart(meta: Meta, attempts: seq<Attempt>, i: nat, j: nat)
    requires i < j < |attempts|
    requires Admitted(MetaAfterAll(meta, attempts, i), attempts[i])
    requires Admitted(MetaAfterAll(meta, attempts, j), attempts[j])
    ensures attempts[j].now >= attempts[i].now + MANUAL_RESCAN_COOLDOWN_SECS
  {
    StampLasts(meta, attempts, i, j);
    StampWaits(MetaAfterAll(meta, attempts, j), attempts[i].now, attempts[j]);
  }

  /** The first attempt of all is admitted exactly if the wallet is unlocked, idle and completely scanned. */
  lemma {:induction false} FirstAdmittedIff(meta: Meta, a: Attempt)
    requires LAST_MANUAL_RESCAN_META !in meta
    ensures Admitted(meta, a) <==> a.unlocked && !a.inFlight && a.complete
  {
  }

  /** A stored time that cannot be read is no reason to wait. */
  lemma {:induction false} UnreadableTime(meta: Meta, a: Attempt)
    requires LAST_MANUAL_RESCAN_META in meta && ParseU64(meta[LAST_MANUAL_RESCAN_META]).None?
    ensures Admitted(meta, a) <==> a.unlocked && !a.inFlight
  {
  }

  /**
   * After an admitted attempt the next one of an unlocked, idle wallet is admitted exactly an hour later, also if
   * the first could not write the keystore and reset nothing, and also if the scan is not complete.
   */
  lemma {:induction false} NextAdmittedIff(meta: Meta, first: Attempt, next: Attempt)
    requires Admitted(meta, first)
    ensures Admitted(MetaAfter(meta, first), next) <==>
      next.unlocked && !next.inFlight && next.now >= first.now + 3600
  {
    assert MetaAt(MetaAfter(meta, first), LAST_MANUAL_RESCAN_META) == Some(Decimal(first.now));
    U64RoundTrip(first.now);
  }

  /** What is stored: the time of an admitted attempt, and no other entry but the probe's two. */
  lemma {:induction false} StoredTime(meta: Meta, a: Attempt, key: string)
    ensures Admitted(meta, a) ==>
      MetaAt(MetaAfter(meta, a), "last_manual_rescan_at") == Some(Decimal(a.now))
    ensures key != "last_manual_rescan_at" && key != "precache_probe_complete" && key != "precache_probe_offset" ==>
      MetaAt(MetaAfter(meta, a), key) == MetaAt(meta, key)
    ensures !Admitted(meta, a) ==> MetaAfter(meta, a) == meta
  {
  }
}
