/** A dashboard power-off that stand-by deferred is not forgotten. */
module RailSafety {
  import opened Definition
  import opened Vehicle
  import opened VehicleSafety
  import Outputs
  import DashboardHold

  /** In stand-by a powered rail has an owner that will still cut it. */
  ghost predicate RailOwned(v: Vehicle) { v.hold.RailOwned(v.st, v.out.dash.level) }

  ghost predicate RailCutsSucceed(io: Io) { io.wires.dashOffOk }

  /** The update watchdog runs out while a map download still holds the rail. */
  ghost predicate DropsDeferral(v: Vehicle, s: Stimulus) {
    && s.Rail? && s.d.WatchdogExpires? && s.d.gen == v.hold.dogGen
    && v.st == Standby && v.hold.updating && v.hold.mapDownloading
    && v.hold.cutsDue == 0 && v.out.dash.level
  }

  lemma FireKeepsRail(v: Vehicle, e: Event, io: Io)
    requires Bookkeeping(v) && (v.st == Standby ==> RailOwned(v)) && RailCutsSucceed(io)
    ensures RailOwned(Fire(v, e, io))
  {
    DispatchIsLegal(v.st, e, GuardsOf(v, io));
    Outputs.DashboardOnly(v.out, io.wires);
  }

  lemma SendKeepsRail(v: Vehicle, e: Event, io: Io, next: Io)
    requires Bookkeeping(v) && RailOwned(v) && RailCutsSucceed(io) && RailCutsSucceed(next)
    ensures RailOwned(Send(v, e, io, next))
  {
    hide Fire;
    FireKeepsRail(v, e, io);
    FireKeepsBookkeeping(v, e, io);
    FireKeepsRail(Fire(v, e, io).(notReadyQueued := false), DashboardNotReady, next);
  }

  /** An update that ends in stand-by starts the shutdown pass that cuts the rail. */
  lemma CompletionStartsPass(v: Vehicle, io: Io, next: Io)
    requires Bookkeeping(v) && v.st == Standby
    ensures OnCompleteDbc(v, io, next).st == ShuttingDown
  {
    var done := v.(hold := DashboardHold.CompleteDbc(v.hold));
    hide Dispatch, GuardsOf;
    PassStarts(GuardsOf(done, io));
  }

  lemma CompletionOwnsRail(v: Vehicle, io: Io, next: Io)
    requires Bookkeeping(v)
    ensures RailOwned(OnCompleteDbc(v, io, next))
  {
    hide Send;
    if v.st == Standby { CompletionStartsPass(v, io, next); }
  }

  lemma RailStep(v: Vehicle, d: RailRequest, io: Io, next: Io)
    requires Bookkeeping(v) && RailOwned(v) && RailCutsSucceed(io) && RailCutsSucceed(next)
    ensures RailOwned(OnRail(v, d, io, next)) <==> !DropsDeferral(v, Rail(d))
  {
    hide OnCompleteDbc, Send, Outputs.CutDashboard, Outputs.PowerDashboard;
    Outputs.DashboardOnly(v.out, io.wires);
    if d == CompleteDbc { CompletionOwnsRail(v, io, next); }
    if d.WatchdogExpires? && v.hold.updating {
      DashboardHold.WatchdogDropsDeferralUnderMapHold(v.hold, v.out.dash.level);
    }
  }

  lemma ReadingKeepsRail(v: Vehicle, r: Reading, io: Io)
    requires RailOwned(v)
    ensures RailOwned(OnReading(v, r, io))
  {
    if r.LeverEdge? { Outputs.BrakeEdgeFrame(v.out, Shown(v.st), r.levers, io.wires.brakeOk); }
  }

  /** One step forgets the deferral exactly when the watchdog expires under a live map hold. */
  lemma StepKeepsRail(v: Vehicle, s: Stimulus, io: Io, next: Io)
    requires Bookkeeping(v) && RailOwned(v) && RailCutsSucceed(io) && RailCutsSucceed(next)
    ensures RailOwned(Step(v, s, io, next)) <==> !DropsDeferral(v, s)
  {
    hide Send, OnRail, OnReading;
    match s
    case Deliver(e) => SendKeepsRail(v, e, io, next);
    case UnlockRequest => SendKeepsRail(v, Unlock, io, next);
    case CountdownFires => SendKeepsRail(v.(idle := v.idle.(deadline := None)), AutoStandbyTimeout, io, next);
    case Input(r) => ReadingKeepsRail(v, r, io);
    case Rail(d) => RailStep(v, d, io, next);
  }

  /** Whatever order updates, map holds, timers and shutdowns come in. */
  lemma {:induction false} RunKeepsRail(v: Vehicle, ms: seq<Moment>)
    requires Bookkeeping(v) && RailOwned(v)
    requires forall i | 0 <= i < |ms| :: RailCutsSucceed(ms[i].io) && RailCutsSucceed(ms[i].next)
    requires forall i | 0 <= i < |ms| :: !DropsDeferral(Run(v, ms[..i]), ms[i].s)
    ensures RailOwned(Run(v, ms))
  {
    var inv := w => Bookkeeping(w) && RailOwned(w);
    var ok := (w, m: Moment) => RailCutsSucceed(m.io) && RailCutsSucceed(m.next) && !DropsDeferral(w, m.s);
    forall w, m | inv(w) && ok(w, m) ensures inv(Step(w, m.s, m.io, m.next)) {
      StepKeepsBookkeeping(w, m.s, m.io, m.next);
      StepKeepsRail(w, m.s, m.io, m.next);
    }
    RunInvariant(v, ms, inv, ok);
  }

  lemma LateCallbackInert(w: Vehicle, gen: nat, io: Io, next: Io)
    requires Bookkeeping(w)
    ensures gen in w.hold.mapArmed && OnRail(w, MapExpires(gen), io, next) != w ==>
      w.hold.mapDownloading && w.hold.mapArmed[gen] == w.hold.mapSession
    ensures gen in w.hold.dogArmed && OnRail(w, WatchdogExpires(gen), io, next) != w ==>
      w.hold.updating && w.hold.dogArmed[gen] == w.hold.dogSession
  {
    hide OnCompleteDbc;
  }

  /** A late timer callback after any run ends a hold only in the session that armed it. */
  lemma {:induction false} LateCallbacksInert(v: Vehicle, ms: seq<Moment>, gen: nat, io: Io, next: Io)
    requires Bookkeeping(v)
    ensures var w := Run(v, ms);
      && (gen in w.hold.mapArmed && OnRail(w, MapExpires(gen), io, next) != w ==>
            w.hold.mapDownloading && w.hold.mapArmed[gen] == w.hold.mapSession)
      && (gen in w.hold.dogArmed && OnRail(w, WatchdogExpires(gen), io, next) != w ==>
            w.hold.updating && w.hold.dogArmed[gen] == w.hold.dogSession)
  {
    hide Run, OnRail, Bookkeeping;
    RunKeepsBookkeeping(v, ms);
    LateCallbackInert(Run(v, ms), gen, io, next);
  }

  lemma DroppedStepByStep(v: Vehicle, io: Io, next: Io)
    requires Bookkeeping(v) && v.st == Standby && v.hold.cutsDue == 0 && !DashboardHold.Held(v.hold)
    requires io.wires.dashOnOk
    ensures var requested := OnRail(OnRail(v, StartDbc, io, next), RequestMap, io, next);
      var dropped := OnRail(requested, WatchdogExpires(v.hold.dogGen + 1), io, next);
      var w := OnRail(dropped, ReleaseMap, io, next);
      w.st == Standby && w.out.dash.level && w.hold.cutsDue == 0 && !DashboardHold.Held(w.hold) && !RailOwned(w)
  {
    hide Outputs.Settle, OnCompleteDbc, OnCut;
    Outputs.SingleWrite(v.out, Outputs.Write(Outputs.DashboardPower, true, true));
    var requested := OnRail(OnRail(v, StartDbc, io, next), RequestMap, io, next);
    assert requested.out.dash.level && requested.hold.updating && requested.hold.mapDownloading;
    var dropped := OnRail(requested, WatchdogExpires(v.hold.dogGen + 1), io, next);
    assert dropped.hold.deferred == None && dropped.hold.cutsDue == 0 && dropped.hold.mapDownloading;
  }

  lemma {:induction false} RunRail(v: Vehicle, ms: seq<Moment>, d: RailRequest, io: Io, next: Io)
    ensures Run(v, ms + [Moment(Rail(d), io, next)]) == OnRail(Run(v, ms), d, io, next)
  {
    hide OnRail, Run;
    RunSnoc(v, ms, Moment(Rail(d), io, next));
  }

  /** In stand-by: an update starts, a map download joins it, the watchdog gives the update
      up, the download ends. The rail stays up and nothing is left that would cut it. */
  lemma DroppedDeferralCounterexample(v: Vehicle, io: Io, next: Io)
    requires Bookkeeping(v) && v.st == Standby && v.hold.cutsDue == 0 && !DashboardHold.Held(v.hold)
    requires io.wires.dashOnOk
    ensures var w := Run(v, [Moment(Rail(StartDbc), io, next), Moment(Rail(RequestMap), io, next),
                             Moment(Rail(WatchdogExpires(v.hold.dogGen + 1)), io, next),
                             Moment(Rail(ReleaseMap), io, next)]);
      w.st == Standby && w.out.dash.level && w.hold.cutsDue == 0 && !DashboardHold.Held(w.hold) && !RailOwned(w)
  {
    hide OnRail, RailOwned, Bookkeeping, Step;
    var a, b := Moment(Rail(StartDbc), io, next), Moment(Rail(RequestMap), io, next);
    var c, d := Moment(Rail(WatchdogExpires(v.hold.dogGen + 1)), io, next), Moment(Rail(ReleaseMap), io, next);
    DroppedStepByStep(v, io, next);
    assert Run(v, []) == v;
    hide Run;
    RunRail(v, [], StartDbc, io, next);
    assert [] + [a] == [a];
    RunRail(v, [a], RequestMap, io, next);
    assert [a] + [b] == [a, b];
    RunRail(v, [a, b], WatchdogExpires(v.hold.dogGen + 1), io, next);
    assert [a, b] + [c] == [a, b, c];
    RunRail(v, [a, b, c], ReleaseMap, io, next);
    assert [a, b, c] + [d] == [a, b, c, d];
  }

  /** A vehicle going to sleep keeps its dashboard up for a map download only under a timer
      that will end the hold. */
  ghost predicate Capped(v: Vehicle) {
    (v.st == ShuttingDown || v.st == Standby) && v.hold.mapDownloading ==> v.hold.mapGen in v.hold.mapArmed
  }

  /** A map download is announced when the shutdown has already begun. */
  ghost predicate JoinsLate(v: Vehicle, s: Stimulus) {
    s == Rail(RequestMap) && !v.hold.mapDownloading && (v.st == ShuttingDown || v.st == Standby)
  }

  lemma FireKeepsCap(v: Vehicle, e: Event, io: Io)
    requires Leaf(v.st) && Capped(v)
    ensures Capped(Fire(v, e, io))
  {
    DispatchIsLegal(v.st, e, GuardsOf(v, io));
  }

  lemma SendKeepsCap(v: Vehicle, e: Event, io: Io, next: Io)
    requires Bookkeeping(v) && Capped(v)
    ensures Capped(Send(v, e, io, next))
  {
    hide Fire;
    FireKeepsCap(v, e, io);
    FireKeepsBookkeeping(v, e, io);
    FireKeepsCap(Fire(v, e, io).(notReadyQueued := false), DashboardNotReady, next);
  }

  lemma RailCap(v: Vehicle, d: RailRequest, io: Io, next: Io)
    requires Bookkeeping(v) && Capped(v)
    ensures Capped(OnRail(v, d, io, next)) <==> !JoinsLate(v, Rail(d))
  {
    hide Send;
    if d == CompleteDbc {
      SendKeepsCap(v.(hold := DashboardHold.CompleteDbc(v.hold)), DbcUpdateComplete, io, next);
    }
  }

  /** One step leaves a hold without its cap exactly when the download is announced late: the
      cap is armed on entering shutting-down only. */
  lemma StepKeepsCap(v: Vehicle, s: Stimulus, io: Io, next: Io)
    requires Bookkeeping(v) && Capped(v)
    ensures Capped(Step(v, s, io, next)) <==> !JoinsLate(v, s)
  {
    hide Send, OnRail;
    match s
    case Deliver(e) => SendKeepsCap(v, e, io, next);
    case UnlockRequest => SendKeepsCap(v, Unlock, io, next);
    case CountdownFires => SendKeepsCap(v.(idle := v.idle.(deadline := None)), AutoStandbyTimeout, io, next);
    case Input(r) => ReadingFrame(v, r, io);
    case Rail(d) => RailCap(v, d, io, next);
  }

  lemma {:induction false} RunKeepsCap(v: Vehicle, ms: seq<Moment>)
    requires Bookkeeping(v) && Capped(v)
    requires forall i | 0 <= i < |ms| :: !JoinsLate(Run(v, ms[..i]), ms[i].s)
    ensures Capped(Run(v, ms))
  {
    var inv := w => Bookkeeping(w) && Capped(w);
    var ok := (w, m: Moment) => !JoinsLate(w, m.s);
    forall w, m | inv(w) && ok(w, m) ensures inv(Step(w, m.s, m.io, m.next)) {
      StepKeepsBookkeeping(w, m.s, m.io, m.next);
      StepKeepsCap(w, m.s, m.io, m.next);
    }
    RunInvariant(v, ms, inv, ok);
  }

  ghost predicate Uncapped(v: Vehicle) { v.hold.mapDownloading && v.hold.mapGen !in v.hold.mapArmed }

  /** A map-hold callback belongs to a timer that was armed. */
  predicate Genuine(v: Vehicle, s: Stimulus) {
    s.Rail? && s.d.MapExpires? ==> s.d.gen in v.hold.mapArmed
  }

  /** The dashboard lets go, or a shutdown begins. */
  predicate EndsHold(v: Vehicle, s: Stimulus, io: Io, next: Io) {
    s == Rail(ReleaseMap) || (v.st != ShuttingDown && Step(v, s, io, next).st == ShuttingDown)
  }

  lemma FireUncapped(v: Vehicle, e: Event, io: Io)
    requires Leaf(v.st) && Uncapped(v)
    ensures Uncapped(Fire(v, e, io)) <==> !(v.st != ShuttingDown && Fire(v, e, io).st == ShuttingDown)
  {
    DispatchIsLegal(v.st, e, GuardsOf(v, io));
  }

  lemma NotReadyLeavesDrive(v: Vehicle, next: Io)
    requires v.st == ReadyToDrive && v.notReadyQueued
    ensures Follow(v, next).st == Parked
  {
    hide Follow, Fire;
    DroppedDriveParks(v, next);
  }

  lemma SendUncapped(v: Vehicle, e: Event, io: Io, next: Io)
    requires Bookkeeping(v) && Uncapped(v)
    ensures Uncapped(Send(v, e, io, next)) <==> !(v.st != ShuttingDown && Send(v, e, io, next).st == ShuttingDown)
  {
    hide Fire;
    var fired := Fire(v, e, io);
    FireUncapped(v, e, io);
    FireKeepsBookkeeping(v, e, io);
    if fired.notReadyQueued {
      NotReadyLeavesDrive(fired, next);
      FireUncapped(fired.(notReadyQueued := false), DashboardNotReady, next);
    }
  }

  lemma CompletionUncapped(v: Vehicle, io: Io, next: Io)
    requires Bookkeeping(v) && Uncapped(v)
    ensures var t := OnCompleteDbc(v, io, next);
      Uncapped(t) <==> !(v.st != ShuttingDown && t.st == ShuttingDown)
  {
    CompletionInOrder(v);
    hide Send, Bookkeeping;
    SendUncapped(v.(hold := DashboardHold.CompleteDbc(v.hold)), DbcUpdateComplete, io, next);
  }

  lemma OnlyReleaseEnds(v: Vehicle, d: RailRequest, io: Io, next: Io)
    requires d != CompleteDbc
    ensures EndsHold(v, Rail(d), io, next) <==> d == ReleaseMap
  {
    hide OnCompleteDbc;
  }

  lemma RailUncapped(v: Vehicle, d: RailRequest, io: Io, next: Io)
    requires Bookkeeping(v) && Uncapped(v) && Genuine(v, Rail(d))
    ensures Uncapped(OnRail(v, d, io, next)) <==> !EndsHold(v, Rail(d), io, next)
  {
    hide OnCompleteDbc, Send, Bookkeeping;
    if d == CompleteDbc {
      CompletionUncapped(v, io, next);
    } else {
      OnlyReleaseEnds(v, d, io, next);
      hide EndsHold, Outputs.CutDashboard, Outputs.PowerDashboard;
      match d
      case ReleaseMap => assert !OnRelease(v, io).hold.mapDownloading;
      case MapExpires(gen) => assert gen != v.hold.mapGen;
      case _ =>
    }
  }

  /** One step gives a hold without its cap an end exactly when the dashboard lets go or a
      shutdown begins; no timer does. */
  lemma StepKeepsUncapped(v: Vehicle, s: Stimulus, io: Io, next: Io)
    requires Bookkeeping(v) && Uncapped(v) && Genuine(v, s)
    ensures Uncapped(Step(v, s, io, next)) <==> !EndsHold(v, s, io, next)
  {
    hide Send, OnRail;
    match s
    case Deliver(e) => SendUncapped(v, e, io, next);
    case UnlockRequest => SendUncapped(v, Unlock, io, next);
    case CountdownFires => SendUncapped(v.(idle := v.idle.(deadline := None)), AutoStandbyTimeout, io, next);
    case Input(r) => ReadingFrame(v, r, io);
    case Rail(d) => RailUncapped(v, d, io, next);
  }

  /** So it lasts along every run without the two. */
  lemma {:induction false} UncappedLasts(v: Vehicle, ms: seq<Moment>)
    requires Bookkeeping(v) && Uncapped(v)
    requires forall i | 0 <= i < |ms| ::
      Genuine(Run(v, ms[..i]), ms[i].s) && !EndsHold(Run(v, ms[..i]), ms[i].s, ms[i].io, ms[i].next)
    ensures Run(v, ms).hold.mapDownloading
  {
    var inv := w => Bookkeeping(w) && Uncapped(w);
    var ok := (w, m: Moment) => Genuine(w, m.s) && !EndsHold(w, m.s, m.io, m.next);
    forall w, m | inv(w) && ok(w, m) ensures inv(Step(w, m.s, m.io, m.next)) {
      StepKeepsBookkeeping(w, m.s, m.io, m.next);
      StepKeepsUncapped(w, m.s, m.io, m.next);
    }
    RunInvariant(v, ms, inv, ok);
  }

  /** In stand-by with nothing deferred, scheduled or under update. */
  ghost predicate Stranded(v: Vehicle) {
    v.st == Standby && !v.hold.updating && v.hold.deferred == None && v.hold.cutsDue == 0
  }

  lemma DroppedDeferralStrands(v: Vehicle, s: Stimulus, io: Io, next: Io)
    requires Bookkeeping(v) && DropsDeferral(v, s)
    ensures Stranded(Step(v, s, io, next)) && Step(v, s, io, next).out.dash.level
  {
  }

  lemma RailStranded(v: Vehicle, d: RailRequest, io: Io, next: Io)
    requires Bookkeeping(v) && Stranded(v)
    ensures var t := OnRail(v, d, io, next);
      (Stranded(t) <==> t.st == Standby && d != StartDbc) && (Stranded(t) ==> t.out.dash == v.out.dash)
  {
    hide OnCompleteDbc, Bookkeeping;
    if d == CompleteDbc { CompletionStartsPass(v, io, next); }
  }

  lemma FireStranded(v: Vehicle, e: Event, io: Io)
    requires Bookkeeping(v) && Stranded(v)
    ensures var t := Fire(v, e, io);
      (if t.st == Standby then t == v else !Stranded(t)) && (t.notReadyQueued ==> t.st == ReadyToDrive)
  {
    hide Dispatch, GuardsOf;
    DispatchIsLegal(v.st, e, GuardsOf(v, io));
  }

  lemma SendStranded(v: Vehicle, e: Event, io: Io, next: Io)
    requires Bookkeeping(v) && Stranded(v)
    ensures var t := Send(v, e, io, next); (Stranded(t) <==> t.st == Standby) && (Stranded(t) ==> t.out == v.out)
  {
    FireStranded(v, e, io);
    hide Fire, Bookkeeping;
    if Fire(v, e, io).notReadyQueued { NotReadyLeavesDrive(Fire(v, e, io), next); }
  }

  /** One step gives a rail left on in stand-by a cut exactly by leaving stand-by or by
      starting an update; neither the download's end nor any timer does. */
  lemma StepStranded(v: Vehicle, s: Stimulus, io: Io, next: Io)
    requires Bookkeeping(v) && Stranded(v)
    ensures var t := Step(v, s, io, next);
      (Stranded(t) <==> t.st == Standby && s != Rail(StartDbc)) && (Stranded(t) ==> t.out.dash == v.out.dash)
  {
    hide Send, OnRail;
    match s
    case Deliver(e) => SendStranded(v, e, io, next);
    case UnlockRequest => SendStranded(v, Unlock, io, next);
    case CountdownFires => SendStranded(v.(idle := v.idle.(deadline := None)), AutoStandbyTimeout, io, next);
    case Input(r) => ReadingFrame(v, r, io);
    case Rail(d) => RailStranded(v, d, io, next);
  }

  /** So the rail stays up along every run that stays in stand-by and starts no update. */
  lemma {:induction false} StrandedRailStaysUp(v: Vehicle, ms: seq<Moment>)
    requires Bookkeeping(v) && Stranded(v) && v.out.dash.level
    requires forall i | 0 <= i < |ms| ::
      ms[i].s != Rail(StartDbc) && Step(Run(v, ms[..i]), ms[i].s, ms[i].io, ms[i].next).st == Standby
    ensures Run(v, ms).out.dash.level && Run(v, ms).hold.cutsDue == 0
  {
    var inv := w => Bookkeeping(w) && Stranded(w) && w.out.dash.level;
    var ok := (w, m: Moment) => m.s != Rail(StartDbc) && Step(w, m.s, m.io, m.next).st == Standby;
    forall w, m | inv(w) && ok(w, m) ensures inv(Step(w, m.s, m.io, m.next)) {
      StepKeepsBookkeeping(w, m.s, m.io, m.next);
      StepStranded(w, m.s, m.io, m.next);
    }
    RunInvariant(v, ms, inv, ok);
  }
}
