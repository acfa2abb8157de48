/** The motor interlock, the reported outputs and the admission to drive, over whole runs. */
module DriveSafety {
  import opened Definition
  import opened Vehicle
  import opened VehicleSafety
  import Outputs
  import DashboardHold

  /** Outside drive the motor cannot turn, and a vehicle shutting down or in stand-by has
      a dark controller. */
  ghost predicate Interlocked(st: State, out: Outputs.Outputs) {
    && (st != ReadyToDrive ==> out.Interlock())
    && (st == ShuttingDown || st == Standby ==> !out.engine.level)
  }

  ghost predicate CutsSucceed(io: Io) { io.wires.engineOffOk }

  lemma EntryInterlocks(v: Vehicle, t: State, ev: Option<Event>, io: Io, out: Outputs.Outputs)
    requires LegalTarget(v.st, t) && CutsSucceed(io)
    requires out == OutputsAfter(v.out, v.hold, v.gate, t, ev, io)
    ensures Interlocked(v.st, v.out) ==> Interlocked(t, out)
    ensures v.out.Consistent() ==> out.Consistent()
  {
    match t
    case Parked => Outputs.ParkedKeepsInterlock(v.out, io.wires, 0);
    case ReadyToDrive => Outputs.DriveReleasesLast(v.out, io.wires, Rechecked(v.gate, ev, io), io.leversAtEntry, 0);
    case ShuttingDown => Outputs.EngineCut(v.out, io.wires);
    case Standby => Outputs.DashboardOnly(v.out, io.wires);
    case _ =>
  }

  lemma FireInterlocks(v: Vehicle, e: Event, io: Io)
    requires Leaf(v.st) && CutsSucceed(io)
    ensures var after := Fire(v, e, io);
      Leaf(after.st) && (Interlocked(v.st, v.out) ==> Interlocked(after.st, after.out))
    ensures v.out.Consistent() ==> Fire(v, e, io).out.Consistent()
  {
    hide Dispatch, GuardsOf, OutputsAfter;
    DispatchIsLegal(v.st, e, GuardsOf(v, io));
    var picked := Dispatch(v.st, e, GuardsOf(v, io));
    if picked.Some? {
      var t := picked.value.target;
      EntryInterlocks(v, t, Some(e), io, OutputsAfter(v.out, v.hold, v.gate, t, Some(e), io));
    }
  }

  lemma SendInterlocks(v: Vehicle, e: Event, io: Io, next: Io)
    requires Leaf(v.st) && CutsSucceed(io) && CutsSucceed(next)
    ensures var after := Send(v, e, io, next); Interlocked(v.st, v.out) ==> Interlocked(after.st, after.out)
    ensures v.out.Consistent() ==> Send(v, e, io, next).out.Consistent()
  {
    hide Fire;
    FireInterlocks(v, e, io);
    FireInterlocks(Fire(v, e, io).(notReadyQueued := false), DashboardNotReady, next);
  }

  lemma ReadingInterlocks(v: Vehicle, r: Reading, io: Io)
    ensures var after := OnReading(v, r, io); Interlocked(v.st, v.out) ==> Interlocked(after.st, after.out)
    ensures v.out.Consistent() ==> OnReading(v, r, io).out.Consistent()
  {
    match r
    case LeverEdge(levers) =>
      Outputs.BrakeEdgeFrame(v.out, Shown(v.st), levers, io.wires.brakeOk);
    case _ =>
  }

  lemma CompletionInterlocks(v: Vehicle, io: Io, next: Io)
    requires Leaf(v.st) && CutsSucceed(io) && CutsSucceed(next)
    ensures var after := OnCompleteDbc(v, io, next);
      (Interlocked(v.st, v.out) ==> Interlocked(after.st, after.out)) && (v.out.Consistent() ==> after.out.Consistent())
  {
    hide Send;
    Outputs.DashboardOnly(v.out, io.wires);
    SendInterlocks(v.(hold := DashboardHold.CompleteDbc(v.hold)), DbcUpdateComplete, io, next);
  }

  lemma RailInterlocks(v: Vehicle, d: RailRequest, io: Io, next: Io)
    requires Leaf(v.st) && CutsSucceed(io) && CutsSucceed(next)
    ensures var after := OnRail(v, d, io, next); Interlocked(v.st, v.out) ==> Interlocked(after.st, after.out)
    ensures v.out.Consistent() ==> OnRail(v, d, io, next).out.Consistent()
  {
    hide OnCompleteDbc, Outputs.CutDashboard, Outputs.PowerDashboard;
    Outputs.DashboardOnly(v.out, io.wires);
    if d == CompleteDbc { CompletionInterlocks(v, io, next); }
  }

  lemma StepInterlocks(v: Vehicle, s: Stimulus, io: Io, next: Io)
    requires Leaf(v.st) && CutsSucceed(io) && CutsSucceed(next)
    ensures var after := Step(v, s, io, next); Interlocked(v.st, v.out) ==> Interlocked(after.st, after.out)
    ensures v.out.Consistent() ==> Step(v, s, io, next).out.Consistent()
  {
    hide Send;
    match s
    case Deliver(e) => SendInterlocks(v, e, io, next);
    case UnlockRequest => SendInterlocks(v, Unlock, io, next);
    case CountdownFires => SendInterlocks(v.(idle := v.idle.(deadline := None)), AutoStandbyTimeout, io, next);
    case Input(r) => ReadingInterlocks(v, r, io);
    case Rail(d) => RailInterlocks(v, d, io, next);
  }

  /** Whatever writes fail along a run, as long as power cuts succeed the interlock holds
      after every step ... */
  lemma {:induction false} RunInterlocks(v: Vehicle, ms: seq<Moment>)
    requires Bookkeeping(v) && Interlocked(v.st, v.out)
    requires forall i | 0 <= i < |ms| :: CutsSucceed(ms[i].io) && CutsSucceed(ms[i].next)
    ensures Interlocked(Run(v, ms).st, Run(v, ms).out)
  {
    var inv := w => Bookkeeping(w) && Interlocked(w.st, w.out);
    var ok := (w: Vehicle, m: Moment) => CutsSucceed(m.io) && CutsSucceed(m.next);
    forall w, m | inv(w) && ok(w, m) ensures inv(Step(w, m.s, m.io, m.next)) {
      StepKeepsBookkeeping(w, m.s, m.io, m.next);
      StepInterlocks(w, m.s, m.io, m.next);
    }
    RunInvariant(v, ms, inv, ok);
  }

  /** ... and Redis and the fault set keep describing the lines. */
  lemma {:induction false} RunReportsLines(v: Vehicle, ms: seq<Moment>)
    requires Bookkeeping(v) && v.out.Consistent()
    requires forall i | 0 <= i < |ms| :: CutsSucceed(ms[i].io) && CutsSucceed(ms[i].next)
    ensures Run(v, ms).out.Consistent()
  {
    var inv := w => Bookkeeping(w) && w.out.Consistent();
    var ok := (w: Vehicle, m: Moment) => CutsSucceed(m.io) && CutsSucceed(m.next);
    forall w, m | inv(w) && ok(w, m) ensures inv(Step(w, m.s, m.io, m.next)) {
      StepKeepsBookkeeping(w, m.s, m.io, m.next);
      StepInterlocks(w, m.s, m.io, m.next);
    }
    RunInvariant(v, ms, inv, ok);
  }

  lemma DriveEntrySettles(v: Vehicle, e: Event, io: Io, passed: bool, entered: Vehicle)
    requires Leaf(v.st) && v.st != ReadyToDrive && v.out.Interlock() && CutsSucceed(io)
    requires entered == Fire(v, e, io) && entered.st == ReadyToDrive && !v.notReadyQueued
    requires passed == (io.wires.dashOnOk && io.kickstandAtEntry == Some(false) && !v.gate.rejected && io.supplyAtEntry)
    ensures entered.notReadyQueued == !passed
    ensures passed ==> (io.wires.brakeOk ==> entered.out.brake.level == io.leversAtEntry)
                       && (io.wires.engineOnOk ==> entered.out.engine.level)
    ensures !passed ==> entered.out.Interlock()
  {
    Outputs.DriveReleasesLast(v.out, io.wires, Rechecked(v.gate, Some(e), io), io.leversAtEntry, 0);
    assert entered.out == OutputsAfter(v.out, v.hold, v.gate, ReadyToDrive, Some(e), io);
  }

  lemma NotReadyParks(v: Vehicle, next: Io)
    requires v.st == ReadyToDrive && v.notReadyQueued && CutsSucceed(next)
    ensures Follow(v, next).st == Parked && Follow(v, next).out.Interlock()
  {
    hide Follow, Fire;
    DroppedDriveParks(v, next);
    Outputs.ParkedKeepsInterlock(v.out, next.wires, 0);
  }

  /** A drive entry that an event started: the motor is freed only behind a passed recheck;
      any rejection ends interlocked and, in the same step, back in parked. */
  lemma DriveEntryOutcome(v: Vehicle, e: Event, io: Io, next: Io)
    requires Bookkeeping(v) && v.st != ReadyToDrive && v.out.Interlock()
    requires CutsSucceed(io) && CutsSucceed(next)
    ensures var entered, after := Fire(v, e, io), Send(v, e, io, next);
      var passed := io.wires.dashOnOk && io.kickstandAtEntry == Some(false) && !v.gate.rejected && io.supplyAtEntry;
      entered.st == ReadyToDrive ==>
        (passed ==> after == entered && (io.wires.brakeOk ==> after.out.brake.level == io.leversAtEntry)
                    && (io.wires.engineOnOk ==> after.out.engine.level))
        && (!passed ==> entered.out.Interlock() && after.st == Parked && after.out.Interlock())
  {
    var passed := io.wires.dashOnOk && io.kickstandAtEntry == Some(false) && !v.gate.rejected && io.supplyAtEntry;
    if Fire(v, e, io).st == ReadyToDrive {
      DriveEntrySettles(v, e, io, passed, Fire(v, e, io));
      if !passed { NotReadyParks(Fire(v, e, io), next); }
    }
  }

  /** What lets an event take the vehicle into drive. */
  ghost predicate Admitted(v: Vehicle, e: Event, io: Io) {
    && io.kickstand == Some(false) && io.supply && !v.gate.rejected
    && ((v.gate.ready && v.gate.unlocked) || (e == SeatboxButton && io.bothBrakes))
  }

  lemma FireAdmission(v: Vehicle, e: Event, io: Io)
    requires v.st != ReadyToDrive
    ensures Fire(v, e, io).st == ReadyToDrive ==> Admitted(v, e, io)
  {
    var g := GuardsOf(v, io);
    DispatchFollowsMap(v.st, e, g);
    if Fire(v, e, io).st == ReadyToDrive { DriveEdge(v.st, e, g, Dispatch(v.st, e, g).value); }
  }

  lemma FollowLeavesDrive(v: Vehicle, next: Io)
    requires v.notReadyQueued ==> v.st == ReadyToDrive
    ensures Follow(v, next).st == ReadyToDrive ==> v.st == ReadyToDrive && !v.notReadyQueued
  {
    hide Fire;
    if v.notReadyQueued { DroppedDriveParks(v, next); }
  }

  lemma SendAdmission(v: Vehicle, e: Event, io: Io, next: Io)
    requires Bookkeeping(v) && v.st != ReadyToDrive
    ensures Send(v, e, io, next).st == ReadyToDrive ==> Admitted(v, e, io)
  {
    hide Fire;
    FireKeepsBookkeeping(v, e, io);
    FollowLeavesDrive(Fire(v, e, io), next);
    FireAdmission(v, e, io);
  }

  lemma PassIsNotDrive(v: Vehicle, io: Io, next: Io)
    requires v.st == Standby && !v.notReadyQueued
    ensures Send(v, DbcUpdateComplete, io, next).st == ShuttingDown
  {
    hide Dispatch, GuardsOf;
    PassStarts(GuardsOf(v, io));
  }

  /** No request about the rail takes the vehicle into drive. */
  lemma RailAdmission(v: Vehicle, d: RailRequest, io: Io, next: Io)
    requires Bookkeeping(v) && v.st != ReadyToDrive
    ensures OnRail(v, d, io, next).st != ReadyToDrive
  {
    hide Send;
    if d == CompleteDbc && v.st == Standby {
      var done := v.(hold := DashboardHold.CompleteDbc(v.hold));
      PassIsNotDrive(done, io, next);
    }
  }

  lemma CountdownAdmission(v: Vehicle, io: Io, next: Io)
    requires Bookkeeping(v) && v.st != ReadyToDrive
    ensures OnCountdown(v, io, next).st == ReadyToDrive ==> Admitted(v, Unlock, io)
  {
    hide Send;
    SendAdmission(v.(idle := v.idle.(deadline := None)), AutoStandbyTimeout, io, next);
  }

  /** Every entry to drive was admitted: raised stand, supply, no rejected request, and
      readiness with an open lock unless the seatbox button overrode them. */
  lemma StepAdmission(v: Vehicle, s: Stimulus, io: Io, next: Io)
    requires Bookkeeping(v) && v.st != ReadyToDrive
    ensures Step(v, s, io, next).st == ReadyToDrive ==> Admitted(v, if s.Deliver? then s.e else Unlock, io)
  {
    hide Send, OnRail, OnCountdown, Admitted;
    match s
    case Deliver(e) => SendAdmission(v, e, io, next);
    case UnlockRequest => SendAdmission(v, Unlock, io, next);
    case CountdownFires => CountdownAdmission(v, io, next);
    case Input(r) => ReadingFrame(v, r, io);
    case Rail(d) => RailAdmission(v, d, io, next);
  }

  /** The rider asks anew: the stand goes down, or a shutdown or stand-by is noticed. */
  ghost predicate NewRequest(v: Vehicle, m: Moment) {
    (m.s == Input(MonitorTick) && ObservesRequest(v, m.io)) || (m.s == Input(KickstandEdge(true)) && !Quiet(v.st))
  }

  lemma FireKeepsRejection(v: Vehicle, e: Event, io: Io)
    ensures Fire(v, e, io).gate.rejected == v.gate.rejected
  {
  }

  lemma SendKeepsRejection(v: Vehicle, e: Event, io: Io, next: Io)
    ensures Send(v, e, io, next).gate.rejected == v.gate.rejected
  {
    hide Fire;
    FireKeepsRejection(v, e, io);
    FireKeepsRejection(Fire(v, e, io).(notReadyQueued := false), DashboardNotReady, next);
  }

  lemma ReadingKeepsRejection(v: Vehicle, r: Reading, io: Io)
    requires !(r == MonitorTick && ObservesRequest(v, io)) && !(r == KickstandEdge(true) && !Quiet(v.st))
    ensures OnReading(v, r, io).gate.rejected == v.gate.rejected
  {
  }

  lemma RailKeepsRejection(v: Vehicle, d: RailRequest, io: Io, next: Io)
    ensures OnRail(v, d, io, next).gate.rejected == v.gate.rejected
  {
    hide Send;
    SendKeepsRejection(v.(hold := DashboardHold.CompleteDbc(v.hold)), DbcUpdateComplete, io, next);
  }

  lemma StepKeepsRejection(v: Vehicle, m: Moment)
    requires v.gate.rejected && !NewRequest(v, m)
    ensures Step(v, m.s, m.io, m.next).gate.rejected
  {
    hide Send;
    match m.s
    case Deliver(e) => SendKeepsRejection(v, e, m.io, m.next);
    case UnlockRequest => SendKeepsRejection(v, Unlock, m.io, m.next);
    case CountdownFires => SendKeepsRejection(v.(idle := v.idle.(deadline := None)), AutoStandbyTimeout, m.io, m.next);
    case Input(r) => ReadingKeepsRejection(v, r, m.io);
    case Rail(d) => RailKeepsRejection(v, d, m.io, m.next);
  }

  /** After a drive restored without supply, no run reaches drive before a new request. */
  lemma {:induction false} RejectedStaysOut(v: Vehicle, ms: seq<Moment>)
    requires Bookkeeping(v) && v.gate.rejected && v.st != ReadyToDrive
    requires forall i | 0 <= i < |ms| :: !NewRequest(Run(v, ms[..i]), ms[i])
    ensures Run(v, ms).gate.rejected && Run(v, ms).st != ReadyToDrive
  {
    var inv := w => Bookkeeping(w) && w.gate.rejected && w.st != ReadyToDrive;
    var ok := (w, m) => !NewRequest(w, m);
    forall w, m | inv(w) && ok(w, m) ensures inv(Step(w, m.s, m.io, m.next)) {
      StepKeepsBookkeeping(w, m.s, m.io, m.next);
      StepKeepsRejection(w, m);
      StepAdmission(w, m.s, m.io, m.next);
    }
    RunInvariant(v, ms, inv, ok);
  }
}
