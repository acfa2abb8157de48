/** The output lines through a start: when the motor is interlocked at its end, and when what
    is published describes the lines; and what follows for whole runs from the start on. */
module StartupLines {
  import opened Definition
  import opened Vehicle
  import opened DriveSafety
  import opened Startup
  import VehicleSafety
  import Restore
  import Outputs
  import HibernationIntent
  import DashboardHold

  /** What entering the saved state writes. A restored drive has no event and no recheck. */
  function EnterLines(o: Outputs.Outputs, f: Found, t: State, io: Io): Outputs.Outputs {
    match t
    case Parked => Outputs.EnterParked(o, io.wires)
    case ReadyToDrive => Outputs.EnterReadyToDrive(o, io.wires, true, io.leversAtEntry)
    case Standby => if io.reentersSelf && !f.updating then Outputs.CutDashboard(o, io.wires) else o
    case _ => o
  }

  /** A restored drive without dashboard is parked by the event it queued. */
  predicate ParksAgain(f: Found, ios: Ios)
    requires Restore.Restorable(f.saved)
  {
    Restore.Target(f.saved, f.supplied) == ReadyToDrive && !ios.restore.wires.dashOnOk
  }

  function ResumeLines(o: Outputs.Outputs, f: Found, ios: Ios): Outputs.Outputs
    requires Restore.Restorable(f.saved)
  {
    var entered := EnterLines(o, f, Restore.Target(f.saved, f.supplied), ios.restore);
    var safe := if f.setStateFails then Outputs.MotorSafe(entered, ios.safe) else entered;
    if ParksAgain(f, ios) then Outputs.EnterParked(safe, ios.next.wires) else safe
  }

  function StartLines(f: Found, ios: Ios): Outputs.Outputs {
    if f.updating then FreshLines(f) else Outputs.CutDashboard(FreshLines(f), ios.start.wires)
  }

  function RestoreLines(f: Found, read: Option<Restore.Saved>, ios: Ios): Outputs.Outputs {
    match Restore.Judge(f.saved, read)
    case Skip => StartLines(f, ios)
    case Attempt => ResumeLines(StartLines(f, ios), f, ios)
    case _ => Outputs.MotorSafe(StartLines(f, ios), ios.safe)
  }

  predicate EndsInDrive(f: Found, read: Option<Restore.Saved>, ios: Ios) {
    Restore.Judge(f.saved, read) == Restore.Attempt
    && Restore.Target(f.saved, f.supplied) == ReadyToDrive && !ParksAgain(f, ios)
  }

  function BootLines(f: Found, read: Option<Restore.Saved>, ios: Ios): Outputs.Outputs {
    var restored := RestoreLines(f, read, ios);
    var braked := if EndsInDrive(f, read, ios) then restored
      else Outputs.Put(restored, Outputs.Write(Outputs.EngineBrake, true, ios.brakeOk));
    if f.saved == Restore.Name(ShownShuttingDown) then Outputs.EnterShuttingDown(braked, ios.shutdown.wires) else braked
  }

  lemma StartedLines(f: Found, io: Io)
    ensures var v := Started(Fresh(f), io);
      v.out == (if f.updating then FreshLines(f) else Outputs.CutDashboard(FreshLines(f), io.wires))
      && v.st == Standby && !v.notReadyQueued && DashboardHold.Held(v.hold) == f.updating
  {
  }

  lemma EnteredLines(v: Vehicle, f: Found, ios: Ios)
    requires v.st == Standby && !v.notReadyQueued && DashboardHold.Held(v.hold) == f.updating
    requires Restore.Restorable(f.saved)
    ensures var w, t := Resumed(v, f, ios.restore, ios.safe), Restore.Target(f.saved, f.supplied);
      var entered := EnterLines(v.out, f, t, ios.restore);
      w.out == (if f.setStateFails then Outputs.MotorSafe(entered, ios.safe) else entered)
      && w.st == t && w.notReadyQueued == ParksAgain(f, ios)
  {
    hide Outputs.EnterParked, Outputs.EnterReadyToDrive, Outputs.CutDashboard, Outputs.MotorSafe,
      GateAfter, CommitmentAfter, HoldAfter, IdleAfter, HibernationIntent.Act, HibernationIntent.Changed;
  }

  lemma ParkedByEvent(v: Vehicle, next: Io)
    requires v.st == ReadyToDrive && v.notReadyQueued
    ensures Follow(v, next).st == Parked && Follow(v, next).out == Outputs.EnterParked(v.out, next.wires)
  {
    hide Fire, Outputs.EnterParked;
    VehicleSafety.DroppedDriveParks(v, next);
  }

  lemma ResumedLines(v: Vehicle, f: Found, ios: Ios)
    requires v.st == Standby && !v.notReadyQueued && DashboardHold.Held(v.hold) == f.updating
    requires Restore.Restorable(f.saved)
    ensures var w := Follow(Resumed(v, f, ios.restore, ios.safe), ios.next);
      w.out == ResumeLines(v.out, f, ios)
      && w.st == if ParksAgain(f, ios) then Parked else Restore.Target(f.saved, f.supplied)
  {
    hide Resumed, EnterLines, Outputs.EnterParked, Outputs.MotorSafe;
    var w := Resumed(v, f, ios.restore, ios.safe);
    EnteredLines(v, f, ios);
    if ParksAgain(f, ios) { ParkedByEvent(w, ios.next); }
  }

  lemma ClosedLines(v: Vehicle, f: Found, ios: Ios)
    requires f.saved == Restore.Name(ShownShuttingDown) ==> v.st == Standby
    ensures var b, cut := Closed(v, f, ios), f.saved == Restore.Name(ShownShuttingDown);
      var braked := if v.st == ReadyToDrive then v.out
        else Outputs.Put(v.out, Outputs.Write(Outputs.EngineBrake, true, ios.brakeOk));
      b.out == (if cut then Outputs.EnterShuttingDown(braked, ios.shutdown.wires) else braked)
      && b.st == if cut then ShuttingDown else v.st
  {
  }

  lemma RestoredLines(f: Found, read: Option<Restore.Saved>, ios: Ios) returns (moved: Vehicle)
    ensures Booted(f, read, ios) == Closed(moved, f, ios) && moved.out == RestoreLines(f, read, ios)
    ensures moved.st == if Restore.Judge(f.saved, read) != Restore.Attempt then Standby
                        else if ParksAgain(f, ios) then Parked else Restore.Target(f.saved, f.supplied)
  {
    hide Started, Resumed, ResumeLines, Closed, Outputs.MotorSafe, Restore.Target;
    var started := Started(Fresh(f), ios.start);
    StartedLines(f, ios.start);
    if Restore.Judge(f.saved, read) == Restore.Attempt { ResumedLines(started, f, ios); }
    moved := Follow(Restored(started, f, read, ios.restore, ios.safe), ios.next);
  }

  /** The lines of a start are these, and it ends in drive only if a drive was resumed. */
  lemma BootedLines(f: Found, read: Option<Restore.Saved>, ios: Ios)
    ensures Booted(f, read, ios).out == BootLines(f, read, ios)
    ensures Booted(f, read, ios).st == ReadyToDrive <==> EndsInDrive(f, read, ios)
  {
    hide Booted, RestoreLines, ParksAgain, Outputs.Put, Outputs.EnterShuttingDown;
    var moved := RestoredLines(f, read, ios);
    Restore.AttemptsAreKnown(f.saved, read, f.supplied);
    ClosedLines(moved, f, ios);
  }

  /** Every power cut of the start succeeds. */
  ghost predicate BootCutsSucceed(ios: Ios) {
    ios.safe.engineOffOk && CutsSucceed(ios.restore) && CutsSucceed(ios.next) && CutsSucceed(ios.shutdown)
  }

  // The interlock

  /** A locked mode is resumed. Its controller came up powered with the brake released, and
      entering it writes neither. */
  predicate NeedsBrake(f: Found, read: Option<Restore.Saved>) {
    (f.saved == Restore.Name(ShownHopOn) || f.saved == Restore.Name(ShownHopOnLearning))
    && read != Some(f.saved) && !f.setStateFails
  }

  lemma MotorSafeIsDark(o: Outputs.Outputs, w: Outputs.Wires)
    requires w.engineOffOk
    ensures !Outputs.MotorSafe(o, w).engine.level
  {
  }

  /** A saved state's controller is powered exactly for the states that keep it so. */
  lemma TargetsPower(f: Found)
    requires Restore.Restorable(f.saved)
    ensures var t := Restore.Target(f.saved, f.supplied);
      (t == HopOn || t == HopOnLearning <==>
         f.saved == Restore.Name(ShownHopOn) || f.saved == Restore.Name(ShownHopOnLearning))
      && (t != ReadyToDrive && t != Parked ==> (ComesUpPowered(f.saved) <==> t == HopOn || t == HopOnLearning))
  {
  }

  /** Entering any state but a locked mode interlocks; a locked mode changes no line. */
  lemma EnterInterlocks(o: Outputs.Outputs, f: Found, t: State, io: Io)
    requires CutsSucceed(io) && o.engine.level == ComesUpPowered(f.saved) && !o.brake.level
    requires Restore.Restorable(f.saved) && t == Restore.Target(f.saved, f.supplied) && t != ReadyToDrive
    ensures EnterLines(o, f, t, io).Interlock() <==> t != HopOn && t != HopOnLearning
  {
    TargetsPower(f);
    hide Restore.Target, Restore.Restorable, ComesUpPowered, CutsSucceed, Outputs.EnterParked, Outputs.CutDashboard;
    if t == Parked { Outputs.ParkedKeepsInterlock(o, io.wires, 0); } else { Outputs.DashboardOnly(o, io.wires); }
  }

  lemma ParkedAgainInterlocks(o: Outputs.Outputs, f: Found, ios: Ios)
    requires BootCutsSucceed(ios) && Restore.Restorable(f.saved) && ParksAgain(f, ios)
    ensures ResumeLines(o, f, ios).Interlock()
  {
    hide EnterLines, Outputs.MotorSafe, Outputs.EnterParked;
    var entered := EnterLines(o, f, Restore.Target(f.saved, f.supplied), ios.restore);
    Outputs.ParkedKeepsInterlock(
      if f.setStateFails then Outputs.MotorSafe(entered, ios.safe) else entered, ios.next.wires, 0);
  }

  lemma ResumeInterlocks(o: Outputs.Outputs, f: Found, read: Option<Restore.Saved>, ios: Ios)
    requires BootCutsSucceed(ios) && Restore.Judge(f.saved, read) == Restore.Attempt
    requires o.engine.level == ComesUpPowered(f.saved) && !o.brake.level
    requires Restore.Target(f.saved, f.supplied) != ReadyToDrive || ParksAgain(f, ios)
    ensures ResumeLines(o, f, ios).Interlock() <==> !NeedsBrake(f, read)
  {
    var t := Restore.Target(f.saved, f.supplied);
    Restore.AttemptsAreKnown(f.saved, read, f.supplied);
    TargetsPower(f);
    hide Restore.Target, Restore.Judge, ComesUpPowered, EnterLines, Outputs.MotorSafe, Outputs.EnterParked;
    if ParksAgain(f, ios) {
      ParkedAgainInterlocks(o, f, ios);
    } else if f.setStateFails {
      MotorSafeIsDark(EnterLines(o, f, t, ios.restore), ios.safe);
    } else {
      EnterInterlocks(o, f, t, ios.restore);
    }
  }

  lemma RestoreInterlocks(f: Found, read: Option<Restore.Saved>, ios: Ios)
    requires BootCutsSucceed(ios) && !EndsInDrive(f, read, ios)
    ensures RestoreLines(f, read, ios).Interlock() <==> !NeedsBrake(f, read)
  {
    Outputs.DashboardOnly(FreshLines(f), ios.start.wires);
    hide ResumeLines, Outputs.MotorSafe, Outputs.CutDashboard, Restore.Target;
    MotorSafeIsDark(StartLines(f, ios), ios.safe);
    if Restore.Judge(f.saved, read) == Restore.Attempt { ResumeInterlocks(StartLines(f, ios), f, read, ios); }
  }

  lemma BootLinesInterlock(f: Found, read: Option<Restore.Saved>, ios: Ios)
    requires BootCutsSucceed(ios) && !EndsInDrive(f, read, ios)
    ensures BootLines(f, read, ios).Interlock() <==> ios.brakeOk || !NeedsBrake(f, read)
  {
    RestoreInterlocks(f, read, ios);
    var braked := Outputs.Put(RestoreLines(f, read, ios), Outputs.Write(Outputs.EngineBrake, true, ios.brakeOk));
    Outputs.EngineCut(braked, ios.shutdown.wires);
  }

  lemma DriveNeedsNoBrake(f: Found, read: Option<Restore.Saved>, ios: Ios)
    ensures EndsInDrive(f, read, ios) ==> !NeedsBrake(f, read)
  {
  }

  /** With every cut succeeding a start ends interlocked exactly when the brake engages or no
      locked mode is resumed. */
  lemma BootInterlocksExactly(f: Found, read: Option<Restore.Saved>, ios: Ios, b: Vehicle)
    requires BootCutsSucceed(ios) && b == Booted(f, read, ios)
    ensures Interlocked(b.st, b.out) <==> ios.brakeOk || !NeedsBrake(f, read)
  {
    BootedLines(f, read, ios);
    BootIsSafe(f, read, ios);
    DriveNeedsNoBrake(f, read, ios);
    if !EndsInDrive(f, read, ios) { BootLinesInterlock(f, read, ios); }
  }

  /** From the start on, whatever is saved, read, pressed, requested or fails to be written,
      as long as cuts succeed and the brake engages once if it is needed: outside drive the
      motor cannot turn, and in shutting-down and stand-by the controller is dark. */
  lemma {:induction false} MotorInterlockFromBoot(
      f: Found, read: Option<Restore.Saved>, ios: Ios, ms: seq<Moment>)
    requires BootCutsSucceed(ios) && (ios.brakeOk || !NeedsBrake(f, read))
    requires forall i | 0 <= i < |ms| :: CutsSucceed(ms[i].io) && CutsSucceed(ms[i].next)
    ensures var v := Run(Booted(f, read, ios), ms); Interlocked(v.st, v.out)
  {
    BootIsSafe(f, read, ios);
    BootInterlocksExactly(f, read, ios, Booted(f, read, ios));
    RunInterlocks(Booted(f, read, ios), ms);
  }

  // What is published

  /** There is nothing to restore, so controller power is not published, and Redis still says
      that it is on. */
  predicate MisreportsEngine(f: Found) { f.saved == Restore.Nothing && f.enginePublished }

  /** Dashboard power comes up as Redis says, or is written before the start is over. */
  predicate DashWritten(f: Found, read: Option<Restore.Saved>, ios: Ios) {
    || (!f.updating && ios.start.wires.dashOffOk)
    || (Restore.Judge(f.saved, read) == Restore.Attempt
        && match Restore.Target(f.saved, f.supplied)
           case Parked => ios.restore.wires.dashOnOk
           case ReadyToDrive => ios.restore.wires.dashOnOk || ios.next.wires.dashOnOk
           case Standby => ios.restore.reentersSelf && !f.updating && ios.restore.wires.dashOffOk
           case _ => false)
  }

  predicate Truthful(f: Found, read: Option<Restore.Saved>, ios: Ios) {
    !MisreportsEngine(f) && (DashboardComesUp(f) == f.dashPublished || DashWritten(f, read, ios))
  }

  lemma StartTells(f: Found, ios: Ios)
    ensures var o := StartLines(f, ios);
      o.FaultsTold() && (o.EngineTold() <==> !(Skipped(f.saved) && f.enginePublished))
      && (o.DashTold() <==> DashboardComesUp(f) == f.dashPublished || (!f.updating && ios.start.wires.dashOffOk))
  {
    Outputs.CutTells(FreshLines(f), ios.start.wires);
  }

  /** Whether entering the state, and being parked again, writes the dashboard line. */
  predicate EntryWritesDash(f: Found, t: State, ios: Ios) {
    match t
    case Parked => ios.restore.wires.dashOnOk
    case ReadyToDrive => ios.restore.wires.dashOnOk
    case Standby => ios.restore.reentersSelf && !f.updating && ios.restore.wires.dashOffOk
    case _ => false
  }

  lemma EnterTells(o: Outputs.Outputs, f: Found, t: State, ios: Ios)
    requires o.FaultsTold() && CutsSucceed(ios.restore)
    ensures var after := EnterLines(o, f, t, ios.restore);
      after.FaultsTold() && (o.EngineTold() ==> after.EngineTold())
      && (after.DashTold() <==> o.DashTold() || EntryWritesDash(f, t, ios))
  {
    match t
    case Parked => Outputs.ParkedTells(o, ios.restore.wires);
    case ReadyToDrive => Outputs.DriveTells(o, ios.restore.wires, true, ios.restore.leversAtEntry);
    case Standby => Outputs.CutTells(o, ios.restore.wires);
    case _ =>
  }

  lemma ResumeTells(o: Outputs.Outputs, f: Found, ios: Ios)
    requires o.FaultsTold() && o.EngineTold() && BootCutsSucceed(ios) && Restore.Restorable(f.saved)
    ensures var r, t := ResumeLines(o, f, ios), Restore.Target(f.saved, f.supplied);
      r.FaultsTold() && r.EngineTold()
      && (r.DashTold() <==>
            o.DashTold() || EntryWritesDash(f, t, ios) || (t == ReadyToDrive && ios.next.wires.dashOnOk))
  {
    var t := Restore.Target(f.saved, f.supplied);
    var entered := EnterLines(o, f, t, ios.restore);
    EnterTells(o, f, t, ios);
    Outputs.MotorSafeTells(entered, ios.safe);
    var safe := if f.setStateFails then Outputs.MotorSafe(entered, ios.safe) else entered;
    Outputs.ParkedTells(safe, ios.next.wires);
  }

  lemma RestoreTells(f: Found, read: Option<Restore.Saved>, ios: Ios)
    requires BootCutsSucceed(ios)
    ensures var o := RestoreLines(f, read, ios);
      o.FaultsTold() && (o.EngineTold() <==> !(Skipped(f.saved) && f.enginePublished))
      && (o.DashTold() <==> DashboardComesUp(f) == f.dashPublished || DashWritten(f, read, ios))
  {
    hide StartLines, ResumeLines, Outputs.MotorSafe, Restore.Target;
    StartTells(f, ios);
    Outputs.MotorSafeTells(StartLines(f, ios), ios.safe);
    if Restore.Judge(f.saved, read) == Restore.Attempt { ResumeTells(StartLines(f, ios), f, ios); }
  }

  /** With every cut succeeding, what is published at the end of a start describes the lines
      exactly if Redis did not keep a power-on of the controller that nobody took back, and
      dashboard power came up as published or was written on the way. */
  lemma BootReportsExactly(f: Found, read: Option<Restore.Saved>, ios: Ios)
    requires BootCutsSucceed(ios)
    ensures Booted(f, read, ios).out.Consistent() <==> Truthful(f, read, ios)
  {
    var restored := RestoreLines(f, read, ios);
    BootedLines(f, read, ios);
    RestoreTells(f, read, ios);
    Outputs.BrakeTells(restored, ios.brakeOk);
    Outputs.ShutdownTells(
      if EndsInDrive(f, read, ios) then restored
      else Outputs.Put(restored, Outputs.Write(Outputs.EngineBrake, true, ios.brakeOk)), ios.shutdown.wires);
  }

  /** A saved state that could not be read, over a power-on still standing in Redis: the
      controller is dark and published as on, whatever succeeds. */
  lemma UnreadStateMisreports(f: Found, read: Option<Restore.Saved>, ios: Ios)
    requires f.saved == Restore.Nothing && f.enginePublished && BootCutsSucceed(ios)
    ensures var o := Booted(f, read, ios).out; !o.engine.level && o.enginePublished && !o.Consistent()
  {
    BootedLines(f, read, ios);
    RestoreTells(f, read, ios);
    Outputs.DashboardOnly(FreshLines(f), ios.start.wires);
    hide Booted, Outputs.CutDashboard;
  }

  /** From such a start on, Redis and the fault set describe the lines after every step. */
  lemma {:induction false} LinesReportedFromBoot(f: Found, read: Option<Restore.Saved>, ios: Ios, ms: seq<Moment>)
    requires BootCutsSucceed(ios) && Truthful(f, read, ios)
    requires forall i | 0 <= i < |ms| :: CutsSucceed(ms[i].io) && CutsSucceed(ms[i].next)
    ensures Run(Booted(f, read, ios), ms).out.Consistent()
  {
    BootIsSafe(f, read, ios);
    BootReportsExactly(f, read, ios);
    RunReportsLines(Booted(f, read, ios), ms);
  }
}
