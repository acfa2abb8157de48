/** Starting the service: the lines come up from the saved state, the machine starts in
    stand-by, the saved state is restored or declined, and the brake is engaged. */
module Startup {
  import opened Definition
  import opened Vehicle
  import opened VehicleSafety
  import opened DriveSafety
  import opened RailSafety
  import opened AtRestSafety
  import Restore
  import Outputs
  import Commitment
  import HibernationIntent
  import DashboardHold
  import AutoStandby

  /** What a start finds: the saved state and what Redis holds, the dashboard power to come up
      with, read from Redis or guessed, a dashboard update still going on, the settings, the
      gate's inputs, and whether the drive supply is there. `setStateFails`: the machine
      reports an error from the restore. */
  datatype Found = Found(
    saved: Restore.Saved, published: SystemState, enginePublished: bool, dashPublished: bool, dashboard: bool,
    updating: bool, seconds: int, graceSeconds: int, ready: bool, unlocked: bool, supplied: bool, setStateFails: bool)

  /** Readings and results in the order they are used. */
  datatype Ios = Ios(
    start: Io, restore: Io, next: Io, safe: Outputs.Wires, lockSensor: Option<bool>, brakeOk: bool, shutdown: Io)

  /** The states whose controller is powered before the machine runs. */
  predicate ComesUpPowered(s: Restore.Saved) {
    s == Restore.Name(ShownReadyToDrive) || s == Restore.Name(ShownParked)
    || s == Restore.Name(ShownHopOn) || s == Restore.Name(ShownHopOnLearning)
  }

  predicate Skipped(s: Restore.Saved) { s == Restore.Nothing || s == Restore.Name(ShownShuttingDown) }

  function DashboardComesUp(f: Found): bool { !Skipped(f.saved) && (f.dashboard || f.updating) }

  /** The lines as they are requested, and what is published of them: controller power is
      published unless there is nothing to restore, dashboard power stays as it was. */
  function FreshLines(f: Found): Outputs.Outputs {
    Outputs.Outputs(
      Outputs.Line(ComesUpPowered(f.saved), false, false),
      Outputs.Line(DashboardComesUp(f), false, false),
      Outputs.Line(false, false, false),
      if Skipped(f.saved) then f.enginePublished else ComesUpPowered(f.saved), f.dashPublished, false)
  }

  function Fresh(f: Found): Vehicle {
    Vehicle(
      Standby, f.published, FreshLines(f),
      Commitment.FRESH, HibernationIntent.NO_INTENT,
      if f.updating then DashboardHold.StartDbc(DashboardHold.NO_HOLD) else DashboardHold.NO_HOLD,
      AutoStandby.Idle(f.seconds, None, false, f.graceSeconds, AutoStandby.Unknown),
      Gate(f.ready, f.unlocked, false), false)
  }

  /** The machine starts in stand-by and runs its entry action. */
  function Started(v: Vehicle, io: Io): Vehicle {
    v.(out := OutputsAfter(v.out, v.hold, v.gate, Standby, None, io), gate := GateAfter(v.gate, v.hold, Standby, io),
       hold := DashboardHold.EnterStandby(v.hold), commit := Commitment.EnterStandby(v.commit))
  }

  function MadeSafe(v: Vehicle, w: Outputs.Wires): Vehicle { v.(out := Outputs.MotorSafe(v.out, w)) }

  predicate UnpoweredRide(f: Found) { f.saved == Restore.Name(ShownReadyToDrive) && !f.supplied }

  function Resumed(v: Vehicle, f: Found, io: Io, safe: Outputs.Wires): Vehicle
    requires Restore.Restorable(f.saved)
  {
    var gated := v.(gate := v.gate.(rejected := v.gate.rejected || UnpoweredRide(f)));
    var entered := Move(gated, Restore.Target(f.saved, f.supplied), NoAction, None, io);
    if f.setStateFails then MadeSafe(entered, safe) else entered
  }

  function Restored(v: Vehicle, f: Found, read: Option<Restore.Saved>, io: Io, safe: Outputs.Wires): Vehicle {
    match Restore.Judge(f.saved, read)
    case Skip => v
    case Attempt => Resumed(v, f, io, safe)
    case _ => MadeSafe(v, safe)
  }

  /** Once everything has been set up the brake is engaged in every state but drive, and a
      shutdown that the restart interrupted is resumed. */
  function Closed(v: Vehicle, f: Found, ios: Ios): Vehicle {
    var sensed := if ios.lockSensor.Some? then v.(gate := v.gate.(unlocked := ios.lockSensor.value)) else v;
    var braked := if sensed.st == ReadyToDrive then sensed
      else sensed.(out := Outputs.Put(sensed.out, Outputs.Write(Outputs.EngineBrake, true, ios.brakeOk)));
    var closing := if f.saved == Restore.Name(ShownShuttingDown) && braked.st != ReadyToDrive && braked.st != Parked
      then Move(braked, ShuttingDown, NoAction, None, ios.shutdown) else braked;
    closing.(published := Shown(closing.st))
  }

  /** A drive entry that was restored may have queued the not-ready event. */
  function Booted(f: Found, read: Option<Restore.Saved>, ios: Ios): Vehicle {
    Closed(Follow(Restored(Started(Fresh(f), ios.start), f, read, ios.restore, ios.safe), ios.next), f, ios)
  }

  /** The machine has started, and nothing is restored yet. */
  ghost predicate AtStart(v: Vehicle, f: Found) {
    && v.st == Standby && v.commit == Commitment.FRESH && v.intent == HibernationIntent.NO_INTENT
    && v.hold.TimersCurrent() && v.hold.OnlyOffDeferred() && !v.idle.Running() && !v.notReadyQueued
    && v.out.engine.level == ComesUpPowered(f.saved)
  }

  lemma StartedIsAtStart(f: Found, io: Io)
    ensures AtStart(Started(Fresh(f), io), f)
    ensures RailCutsSucceed(io) ==> RailOwned(Started(Fresh(f), io))
  {
    DashboardHold.HoldsKeepTimersCurrent(DashboardHold.NO_HOLD);
    Outputs.DashboardOnly(Fresh(f).out, io.wires);
  }

  /** After the restore: where the judgement leads, with nothing sent or requested, and dark
      in stand-by. */
  ghost predicate AfterRestore(v: Vehicle, f: Found, read: Option<Restore.Saved>) {
    && Leaf(v.st) && v.st != Updating && v.st != ShuttingDown
    && v.commit == Commitment.FRESH && v.intent == HibernationIntent.NO_INTENT
    && v.hold.TimersCurrent() && v.hold.OnlyOffDeferred() && Owned(v)
    && (v.notReadyQueued ==> v.st == ReadyToDrive)
    && (v.st == Standby ==> !v.out.engine.level)
    && (if Restore.Judge(f.saved, read) == Restore.Attempt
        then v.st == Restore.Target(f.saved, f.supplied) && (UnpoweredRide(f) ==> v.gate.rejected)
        else v.st == Standby)
  }

  /** Entering a saved state changes little but the outputs. */
  lemma EntersFromStart(v: Vehicle, t: State, io: Io)
    requires v.st == Standby && v.commit == Commitment.FRESH && v.intent == HibernationIntent.NO_INTENT
    requires v.hold.TimersCurrent() && v.hold.OnlyOffDeferred() && !v.idle.Running() && !v.notReadyQueued
    requires Leaf(t) && t != Updating && t != ShuttingDown
    ensures var w := Move(v, t, NoAction, None, io);
      && w.st == t && w.commit == Commitment.FRESH && w.intent == HibernationIntent.NO_INTENT
      && w.hold.TimersCurrent() && w.hold.OnlyOffDeferred() && w.idle.OwnedBy(t)
      && (w.notReadyQueued ==> t == ReadyToDrive) && w.gate.rejected == v.gate.rejected
      && (t == Standby ==> w.out.engine == v.out.engine)
      && (RailCutsSucceed(io) && RailOwned(v) ==> RailOwned(w))
  {
    FamilyBorder(Standby, t);
    Outputs.DashboardOnly(v.out, io.wires);
  }

  lemma ResumedIsAfterRestore(v: Vehicle, f: Found, read: Option<Restore.Saved>, io: Io, safe: Outputs.Wires)
    requires AtStart(v, f) && safe.engineOffOk && Restore.Judge(f.saved, read) == Restore.Attempt
    ensures AfterRestore(Resumed(v, f, io, safe), f, read)
    ensures RailCutsSucceed(io) && RailOwned(v) ==> RailOwned(Resumed(v, f, io, safe))
  {
    Restore.AttemptsAreKnown(f.saved, read, f.supplied);
    var gated := v.(gate := v.gate.(rejected := v.gate.rejected || UnpoweredRide(f)));
    EntersFromStart(gated, Restore.Target(f.saved, f.supplied), io);
  }

  lemma RestoredIsAfterRestore(v: Vehicle, f: Found, read: Option<Restore.Saved>, io: Io, safe: Outputs.Wires)
    requires AtStart(v, f) && safe.engineOffOk
    ensures AfterRestore(Restored(v, f, read, io, safe), f, read)
    ensures RailCutsSucceed(io) && RailOwned(v) ==> RailOwned(Restored(v, f, read, io, safe))
  {
    if Restore.Judge(f.saved, read) == Restore.Attempt { ResumedIsAfterRestore(v, f, read, io, safe); }
  }

  lemma NotReadyAfterRestore(v: Vehicle, next: Io)
    requires v.st == ReadyToDrive && v.notReadyQueued && Owned(v)
    ensures var w := Follow(v, next);
      w.st == Parked && Owned(w) && !w.notReadyQueued && w.gate.rejected == v.gate.rejected
  {
    hide Fire, Outputs.EnterParked;
    DroppedDriveParks(v, next);
    FireKeepsOwned(v.(notReadyQueued := false), DashboardNotReady, next);
  }

  /** The not-ready event, if the restored drive queued one, has been handled. */
  ghost predicate InOrder(w: Vehicle, f: Found) {
    && Bookkeeping(w) && Owned(w) && w.st != ShuttingDown && !w.intent.requested
    && (w.st == Standby ==> !w.out.engine.level)
    && (Skipped(f.saved) ==> w.st == Standby)
  }

  lemma FollowedIsInOrder(v: Vehicle, f: Found, read: Option<Restore.Saved>, next: Io)
    requires AfterRestore(v, f, read)
    ensures var w := Follow(v, next);
      InOrder(w, f) && w.st == (if v.notReadyQueued then Parked else v.st) && w.gate.rejected == v.gate.rejected
    ensures RailOwned(v) ==> RailOwned(Follow(v, next))
  {
    FollowKeepsBookkeeping(v, next);
    if v.notReadyQueued { NotReadyAfterRestore(v, next); }
  }

  /** An interrupted shutdown is taken up again. */
  lemma ShutdownResumes(w: Vehicle, f: Found, ios: Ios, b: Vehicle)
    requires InOrder(w, f) && f.saved == Restore.Name(ShownShuttingDown) && b == Closed(w, f, ios)
    ensures Bookkeeping(b) && Owned(b) && b.st == ShuttingDown && b.gate.rejected == w.gate.rejected
  {
    hide Outputs.EnterShuttingDown, Outputs.Put, HoldAfter;
    HoldMoves(w.hold, ShuttingDown, false, ios.shutdown, b.hold);
    Commitment.ShuttingDownKeeps(w.commit, w.st, b.commit.sent);
  }

  lemma ShutdownIsDark(w: Vehicle, f: Found, ios: Ios)
    requires w.st == Standby && f.saved == Restore.Name(ShownShuttingDown) && CutsSucceed(ios.shutdown)
    ensures !Closed(w, f, ios).out.engine.level
  {
    Outputs.EngineCut(Outputs.Put(w.out, Outputs.Write(Outputs.EngineBrake, true, ios.brakeOk)), ios.shutdown.wires);
  }

  lemma ClosedIsSafe(w: Vehicle, f: Found, ios: Ios)
    requires InOrder(w, f)
    ensures var b := Closed(w, f, ios);
      && Bookkeeping(b) && Owned(b) && b.published == Shown(b.st)
      && (b.st == if f.saved == Restore.Name(ShownShuttingDown) then ShuttingDown else w.st)
      && (CutsSucceed(ios.shutdown) && ios.brakeOk ==> Interlocked(b.st, b.out))
      && (CutsSucceed(ios.shutdown) && (b.st == ShuttingDown || b.st == Standby) ==> !b.out.engine.level)
      && (RailOwned(w) ==> RailOwned(b)) && b.gate.rejected == w.gate.rejected
  {
    if f.saved == Restore.Name(ShownShuttingDown) {
      ShutdownResumes(w, f, ios, Closed(w, f, ios));
      if CutsSucceed(ios.shutdown) { ShutdownIsDark(w, f, ios); }
    }
  }

  /** The stages of a start, one after the other. */
  lemma Stages(f: Found, read: Option<Restore.Saved>, ios: Ios) returns (restored: Vehicle, moved: Vehicle)
    requires ios.safe.engineOffOk
    ensures Booted(f, read, ios) == Closed(moved, f, ios)
    ensures AfterRestore(restored, f, read) && InOrder(moved, f)
    ensures moved.st == if restored.notReadyQueued then Parked else restored.st
    ensures moved.gate.rejected == restored.gate.rejected
    ensures RailCutsSucceed(ios.start) && RailCutsSucceed(ios.restore) ==> RailOwned(moved)
  {
    var started := Started(Fresh(f), ios.start);
    StartedIsAtStart(f, ios.start);
    RestoredIsAfterRestore(started, f, read, ios.restore, ios.safe);
    restored := Restored(started, f, read, ios.restore, ios.safe);
    FollowedIsInOrder(restored, f, read, ios.next);
    moved := Follow(restored, ios.next);
  }

  /** Every start ends with the books in order and the countdown owned, interlocked if cuts
      succeed and the brake engages, and with an owner for a powered rail if rail cuts succeed. */
  lemma BootIsSafe(f: Found, read: Option<Restore.Saved>, ios: Ios)
    requires ios.safe.engineOffOk
    ensures var b := Booted(f, read, ios);
      && Bookkeeping(b) && Owned(b)
      && (CutsSucceed(ios.shutdown) && ios.brakeOk ==> Interlocked(b.st, b.out))
      && (CutsSucceed(ios.shutdown) && (b.st == ShuttingDown || b.st == Standby) ==> !b.out.engine.level)
      && (RailCutsSucceed(ios.start) && RailCutsSucceed(ios.restore) ==> RailOwned(b))
  {
    var _, moved := Stages(f, read, ios);
    ClosedIsSafe(moved, f, ios);
  }

  lemma DriveWasJudged(restored: Vehicle, f: Found, read: Option<Restore.Saved>, end: State, rejected: bool)
    requires AfterRestore(restored, f, read) && rejected == restored.gate.rejected
    requires end == if f.saved == Restore.Name(ShownShuttingDown) then ShuttingDown
                    else if restored.notReadyQueued then Parked else restored.st
    ensures end == ReadyToDrive ==> f.saved == Restore.Name(ShownReadyToDrive) && f.supplied && read != Some(f.saved)
    ensures UnpoweredRide(f) && read != Some(f.saved) ==> end == Parked && rejected
  {
    Restore.AttemptsAreKnown(f.saved, read, f.supplied);
  }

  /** A start ends in drive only when drive was saved, still has its supply, and was not
      refused; a ride saved without supply ends parked and rejected. */
  lemma BootIntoDrive(f: Found, read: Option<Restore.Saved>, ios: Ios, b: Vehicle)
    requires ios.safe.engineOffOk && b == Booted(f, read, ios)
    ensures b.st == ReadyToDrive ==> f.saved == Restore.Name(ShownReadyToDrive) && f.supplied && read != Some(f.saved)
    ensures UnpoweredRide(f) && read != Some(f.saved) ==> b.st == Parked && b.gate.rejected
  {
    var restored, moved := Stages(f, read, ios);
    ClosedIsSafe(moved, f, ios);
    DriveWasJudged(restored, f, read, b.st, b.gate.rejected);
  }

  /** A ride saved without supply does not resume before the rider asks anew. */
  lemma {:induction false} UnpoweredRideStaysParked(f: Found, read: Option<Restore.Saved>, ios: Ios, ms: seq<Moment>)
    requires ios.safe.engineOffOk
    requires UnpoweredRide(f) && read != Some(f.saved)
    requires forall i | 0 <= i < |ms| :: !NewRequest(Run(Booted(f, read, ios), ms[..i]), ms[i])
    ensures Run(Booted(f, read, ios), ms).st != ReadyToDrive
  {
    BootIsSafe(f, read, ios);
    BootIntoDrive(f, read, ios, Booted(f, read, ios));
    RejectedStaysOut(Booted(f, read, ios), ms);
  }
}
