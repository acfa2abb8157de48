/** What may keep the dashboard rail up past a shutdown, the cut owed for it, and the
    two timers that end such a hold. */
module DashboardHold {
  import opened Definition

  /** `cutsDue` counts scheduled cuts. A session is one uninterrupted hold; the armed maps
      record, for each generation ever armed, the session it was armed in. */
  datatype Hold = Hold(
    updating: bool, mapDownloading: bool, deferred: Option<bool>, cutsDue: nat,
    mapGen: nat, mapSession: nat, mapArmed: map<nat, nat>,
    dogGen: nat, dogSession: nat, dogArmed: map<nat, nat>)
  {
    /** The newest generation of each timer belongs to the hold that is live now. */
    ghost predicate TimersCurrent() {
      && (forall g | g in mapArmed :: g <= mapGen)
      && (forall g | g in dogArmed :: g <= dogGen)
      && (mapGen in mapArmed ==> mapDownloading && mapArmed[mapGen] == mapSession)
      && (updating ==> dogGen in dogArmed && dogArmed[dogGen] == dogSession)
    }

    /** In stand-by a powered rail has an owner that will still cut it. */
    ghost predicate RailOwned(st: State, rail: bool) {
      st == Standby && rail ==> cutsDue > 0 || updating || (mapDownloading && deferred == Some(false))
    }

    ghost predicate OnlyOffDeferred() { deferred != Some(true) }
  }

  const NO_HOLD := Hold(false, false, None, 0, 0, 0, map[], 0, 0, map[])

  function StartDbc(h: Hold): Hold {
    h.(updating := true, dogGen := h.dogGen + 1, dogSession := h.dogSession + 1,
       dogArmed := h.dogArmed[h.dogGen + 1 := h.dogSession + 1])
  }

  function CompleteDbc(h: Hold): Hold { h.(updating := false, deferred := None) }

  function RequestMap(h: Hold): Hold {
    if h.mapDownloading then h else h.(mapDownloading := true, mapSession := h.mapSession + 1)
  }

  function StartMapTimer(h: Hold): Hold {
    h.(mapGen := h.mapGen + 1, mapArmed := h.mapArmed[h.mapGen + 1 := h.mapSession])
  }

  /** Ends the map hold. Under an update the deferral stays for the update to resolve. */
  function Release(h: Hold, seen: SystemState): Hold {
    if !h.mapDownloading then h
    else
      var ended := h.(mapDownloading := false, mapGen := h.mapGen + 1);
      if h.updating then ended
      else ended.(deferred := None,
                  cutsDue := if h.deferred == Some(false) && seen == ShownStandby then h.cutsDue + 1 else h.cutsDue)
  }

  predicate ReleasePowersOn(h: Hold) { h.mapDownloading && !h.updating && h.deferred == Some(true) }

  function MapExpiry(h: Hold, gen: nat, seen: SystemState): Hold {
    if gen != h.mapGen then h else Release(h, seen)
  }

  function ShouldPowerOffAfterWatchdog(seen: SystemState, deferred: Option<bool>, mapDownloading: bool): bool {
    var powerOff := match deferred
      case Some(on) => !on && seen == ShownStandby
      case None => seen == ShownStandby;
    powerOff && !mapDownloading
  }

  function WatchdogTimeout(h: Hold, seen: SystemState): Hold {
    if !h.updating then h
    else h.(updating := false, deferred := None,
            cutsDue := if ShouldPowerOffAfterWatchdog(seen, h.deferred, h.mapDownloading)
                       then h.cutsDue + 1 else h.cutsDue)
  }

  function WatchdogExpiry(h: Hold, gen: nat, seen: SystemState): Hold {
    if gen != h.dogGen then h else WatchdogTimeout(h, seen)
  }

  /** Shutting down: hibernation ends a map hold, and an update too unless an install
      blocks it; an ordinary shutdown restarts the cap on a map hold. */
  function EnterShuttingDown(h: Hold, hibernating: bool, installFree: bool): Hold {
    var h1 :=
      if h.mapDownloading && !hibernating then StartMapTimer(h)
      else if h.mapDownloading then h.(mapDownloading := false, mapGen := h.mapGen + 1)
      else h;
    if h1.updating && hibernating && installFree then h1.(updating := false, deferred := None) else h1
  }

  predicate Held(h: Hold) { h.updating || h.mapDownloading }

  function EnterStandby(h: Hold): Hold { if Held(h) then h.(deferred := Some(false)) else h }

  lemma HoldsKeepTimersCurrent(h: Hold)
    requires h.TimersCurrent()
    ensures StartDbc(h).TimersCurrent() && CompleteDbc(h).TimersCurrent() && RequestMap(h).TimersCurrent()
  {
  }

  lemma ReleasesKeepTimersCurrent(h: Hold, seen: SystemState)
    requires h.TimersCurrent()
    ensures Release(h, seen).TimersCurrent() && WatchdogTimeout(h, seen).TimersCurrent()
  {
  }

  lemma EntriesKeepTimersCurrent(h: Hold, hibernating: bool, installFree: bool)
    requires h.TimersCurrent()
    ensures EnterShuttingDown(h, hibernating, installFree).TimersCurrent() && EnterStandby(h).TimersCurrent()
  {
  }

  /** A late callback is inert: it ends a hold only in the session that armed it. */
  lemma StaleCallbacksInert(h: Hold, gen: nat, seen: SystemState)
    requires h.TimersCurrent()
    ensures gen in h.mapArmed && (gen != h.mapGen || h.mapArmed[gen] != h.mapSession) ==> MapExpiry(h, gen, seen) == h
    ensures gen in h.mapArmed && MapExpiry(h, gen, seen) != h ==>
      h.mapDownloading && h.mapArmed[gen] == h.mapSession && !MapExpiry(h, gen, seen).mapDownloading
    ensures gen in h.dogArmed && (!h.updating || gen != h.dogGen) ==> WatchdogExpiry(h, gen, seen) == h
    ensures gen in h.dogArmed && h.updating && !WatchdogExpiry(h, gen, seen).updating ==>
      h.dogArmed[gen] == h.dogSession
  {
  }

  /** A watchdog expiry in stand-by keeps the rail owned exactly when no map hold is live,
      or a cut is already due, or the rail is down. */
  lemma WatchdogDropsDeferralUnderMapHold(h: Hold, rail: bool)
    requires h.updating && h.OnlyOffDeferred()
    ensures WatchdogTimeout(h, ShownStandby).RailOwned(Standby, rail)
      <==> !h.mapDownloading || h.cutsDue > 0 || !rail
  {
  }

  /** And then nothing that ends the hold cuts the rail any more. */
  lemma LostDeferralStaysLost(h: Hold, gen: nat)
    requires h.updating && h.mapDownloading && h.cutsDue == 0
    ensures var after := WatchdogTimeout(h, ShownStandby);
      && Release(after, ShownStandby).cutsDue == 0 && MapExpiry(after, gen, ShownStandby).cutsDue == 0
      && !Release(after, ShownStandby).RailOwned(Standby, true)
  {
  }
}
