/** The vehicle system as the service runs it: one object whose fields its entry actions,
    handlers and timers update in source order. The fields are grouped by concern into
    records; every method is tied to the transition system in `Vehicle` through `Abs`. */
module VehicleSystem {
  import opened Definition
  import opened DeferredEffects
  import V = Vehicle
  import Outputs
  import Commitment
  import HibernationIntent
  import DashboardHold
  import AutoStandby
  import Restore
  import Startup
  import StandDeferral

  /** What the drive-start monitor publishes. */
  datatype DriveStartStatus = NoWarning | WaitingBattery | TimedOut

  /** The raw writes of a drive entry, and its effects on top of them. */
  lemma DriveJoin(o: Outputs.Outputs, w: Outputs.Wires, recheck: bool, levers: bool)
    ensures var on := Outputs.Write(Outputs.EnginePower, true, w.engineOnOk);
      var dash := Outputs.Write(Outputs.DashboardPower, true, w.dashOnOk);
      var off := Outputs.Write(Outputs.EnginePower, false, w.engineOffOk);
      var brake := Outputs.Write(Outputs.EngineBrake, if recheck then levers else true, w.brakeOk);
      var two, effects := RawWrite(RawWrite(o, on), dash), DriveEffects(w, recheck, levers);
      Outputs.EnterReadyToDrive(o, w, recheck, levers) ==
        if !w.dashOnOk then ApplyAll(RawWrite(two, off), effects)
        else if recheck || w.brakeOk then ApplyAll(RawWrite(two, brake), effects)
        else ApplyAll(RawWrite(RawWrite(two, brake), off), effects)
  {
    DriveJoinSettles(o, w, recheck, levers);
    var ws := Outputs.DriveWrites(w, recheck, levers);
    if !w.dashOnOk || recheck || w.brakeOk {
      assert ws == [ws[0], ws[1], ws[2]];
      Writes3(o, ws[0], ws[1], ws[2]);
    } else {
      assert ws == [ws[0], ws[1], ws[2], ws[3]];
      Writes4(o, ws[0], ws[1], ws[2], ws[3]);
    }
  }

  lemma ParkedPutsSettle(o: Outputs.Outputs, w: Outputs.Wires)
    ensures var brake := Outputs.Put(o, Outputs.Write(Outputs.EngineBrake, true, w.brakeOk));
      var powerOk := if w.brakeOk then w.engineOnOk else w.engineOffOk;
      var power := Outputs.Put(brake, Outputs.Write(Outputs.EnginePower, w.brakeOk, powerOk));
      var held := if w.brakeOk then power else power.(ecuHeld := true);
      Outputs.Put(held, Outputs.Write(Outputs.DashboardPower, true, w.dashOnOk)) == Outputs.EnterParked(o, w)
  {
    var ws := Outputs.ParkedWrites(w);
    assert ws == [ws[0], ws[1], ws[2]];
    Writes3(o, ws[0], ws[1], ws[2]);
  }

  class VehicleSystem {
    /** The machine's state, the handlers' lagging copy of it, and the published one. */
    var current: State
    var state: SystemState
    var vehicleState: SystemState

    var out: Outputs.Outputs
    var commit: Commitment.Commitment
    var intent: HibernationIntent.Intent
    var hold: DashboardHold.Hold
    var idle: AutoStandby.Idle
    var gate: V.Gate
    var notReadyQueued: bool

    /** When drive was entered last, and the stand as it was last acted on. */
    var driveEnteredAt: int
    var stand: StandDeferral.Stand

    ghost predicate Valid() reads this { state == Shown(current) }

    ghost function Abs(): V.Vehicle
      reads this
    {
      V.Vehicle(current, vehicleState, out, commit, intent, hold, idle, gate, notReadyQueued)
    }

    constructor ()
      ensures Valid() && !notReadyQueued
    {
      current, state, vehicleState := Standby, ShownStandby, ShownStandby;
      out := Outputs.ALL_OFF;
      commit, intent, hold := Commitment.FRESH, HibernationIntent.NO_INTENT, DashboardHold.NO_HOLD;
      idle := AutoStandby.Idle(0, None, false, 0, AutoStandby.Unknown);
      gate, notReadyQueued := V.Gate(false, false, false), false;
      driveEnteredAt, stand := 0, StandDeferral.Stand(None, None, false);
    }

    // Outputs

    method WriteOutputDeferredFault(ch: Outputs.Channel, value: bool, ok: bool) returns (report: Effect)
      modifies this`out
      ensures out == RawWrite(old(out), Outputs.Write(ch, value, ok))
      ensures report == ReportOf(Outputs.Write(ch, value, ok))
    {
      var line := out.At(ch).(failed := !ok);
      if ok { line := line.(level := value); }
      match ch {
        case EnginePower => out := out.(engine := line);
        case DashboardPower => out := out.(dash := line);
        case EngineBrake => out := out.(brake := line);
      }
      report := Report(ch, !ok);
    }

    method SetPowerOutput(ch: Outputs.Channel, enabled: bool, ok: bool) returns (report: Effect, finish: Effect)
      modifies this`out, this`gate
      ensures out == RawWrite(old(out), Outputs.Write(ch, enabled, ok))
      ensures report == ReportOf(Outputs.Write(ch, enabled, ok)) && finish == FinishOf(Outputs.Write(ch, enabled, ok))
      ensures gate == if ch == Outputs.DashboardPower && !enabled then old(gate).(ready := false) else old(gate)
    {
      if ch == Outputs.DashboardPower && !enabled && gate.ready { gate := gate.(ready := false); }
      report := WriteOutputDeferredFault(ch, enabled, ok);
      finish := if ok then Finish(ch, enabled) else Nothing;
    }

    method RunEffect(e: Effect)
      modifies this`out
      ensures out == Apply(old(out), e)
    {
      match e {
        case Report(EnginePower, failed) => out := out.(engine := out.engine.(fault := failed));
        case Report(DashboardPower, failed) => out := out.(dash := out.dash.(fault := failed));
        case Report(EngineBrake, failed) => out := out.(brake := out.brake.(fault := failed));
        case Finish(DashboardPower, enabled) => out := out.(dashPublished := enabled);
        case Finish(EnginePower, enabled) =>
          out := out.(enginePublished := enabled);
          if enabled { out := out.(ecuHeld := false); }
        case _ =>
      }
    }

    /** The effects of a drive entry, run in order and joined before it returns. */
    method RunEffects(effects: seq<Effect>)
      modifies this`out
      ensures out == ApplyAll(old(out), effects)
    {
      var i := 0;
      while i < |effects|
        invariant 0 <= i <= |effects|
        invariant out == ApplyAll(old(out), effects[..i])
      {
        assert effects[..i + 1][..i] == effects[..i];
        RunEffect(effects[i]);
        i := i + 1;
      }
      assert effects[..i] == effects;
    }

    method WriteBrake(value: bool, ok: bool)
      modifies this`out
      ensures out == Outputs.Put(old(out), Outputs.Write(Outputs.EngineBrake, value, ok))
    {
      var report := WriteOutputDeferredFault(Outputs.EngineBrake, value, ok);
      RunEffect(report);
    }

    method SetPower(ch: Outputs.Channel, enabled: bool, ok: bool)
      requires ch != Outputs.EngineBrake
      modifies this`out, this`gate
      ensures out == Outputs.Put(old(out), Outputs.Write(ch, enabled, ok))
      ensures gate == if ch == Outputs.DashboardPower && !enabled then old(gate).(ready := false) else old(gate)
    {
      var report, finish := SetPowerOutput(ch, enabled, ok);
      RunEffect(report);
      RunEffect(finish);
    }

    // Entry actions

    method UnlockHandlebarIfNeeded(lockSensor: Option<bool>)
      modifies this`gate
      ensures gate == old(gate).(unlocked := if lockSensor.Some? then lockSensor.value else old(gate).unlocked)
    {
      if lockSensor.Some? { gate := gate.(unlocked := lockSensor.value); }
    }

    /** The dashboard did not come up: cut the controller before any reporting. */
    method AbandonDrive(engineReport: Effect, engineFinish: Effect, dashReport: Effect, offOk: bool)
      modifies this`out, this`gate
      ensures gate == old(gate)
      ensures var off := Outputs.Write(Outputs.EnginePower, false, offOk);
        out == ApplyAll(RawWrite(old(out), off),
          if offOk then [engineReport, dashReport, ReportOf(off), FinishOf(off)]
          else [engineReport, engineFinish, dashReport, ReportOf(off)])
    {
      var offReport, offFinish := SetPowerOutput(Outputs.EnginePower, false, offOk);
      if offOk {
        RunEffects([engineReport, dashReport, offReport, offFinish]);
      } else {
        RunEffects([engineReport, engineFinish, dashReport, offReport]);
      }
    }

    /** The stand or the supply changed: hold the brake, or cut the controller if that fails. */
    method RetainInterlock(
        engineReport: Effect, engineFinish: Effect, dashReport: Effect, dashFinish: Effect, w: Outputs.Wires)
      modifies this`out, this`gate
      ensures gate == old(gate)
      ensures var brake := Outputs.Write(Outputs.EngineBrake, true, w.brakeOk);
        var off := Outputs.Write(Outputs.EnginePower, false, w.engineOffOk);
        if w.brakeOk then
          out == ApplyAll(RawWrite(old(out), brake),
            [engineReport, engineFinish, dashReport, dashFinish, ReportOf(brake)])
        else
          out == ApplyAll(RawWrite(RawWrite(old(out), brake), off),
            [engineReport, if w.engineOffOk then FinishOf(off) else engineFinish, dashReport, dashFinish,
             ReportOf(brake), ReportOf(off)])
    {
      var brakeReport := WriteOutputDeferredFault(Outputs.EngineBrake, true, w.brakeOk);
      var powerEffects := [engineReport, engineFinish, dashReport, dashFinish, brakeReport];
      if !w.brakeOk {
        var offReport, offFinish := SetPowerOutput(Outputs.EnginePower, false, w.engineOffOk);
        powerEffects := powerEffects + [offReport];
        if w.engineOffOk { powerEffects := powerEffects[1 := offFinish]; }
        assert powerEffects ==
          [engineReport, if w.engineOffOk then offFinish else engineFinish, dashReport, dashFinish,
           brakeReport, offReport];
      }
      RunEffects(powerEffects);
    }

    /** Power, dashboard, recheck and brake are written first; everything reported about
        them runs at the join. Returns whether the not-ready event is to be queued. */
    method DriveOutputs(ev: Option<Event>, io: V.Io) returns (rejected: bool)
      modifies this`out, this`gate
      ensures gate == old(gate)
      ensures out == V.OutputsAfter(old(out), old(hold), old(gate), ReadyToDrive, ev, io)
      ensures rejected == !(io.wires.dashOnOk && V.Rechecked(old(gate), ev, io))
    {
      DriveJoin(out, io.wires, V.Rechecked(gate, ev, io), io.leversAtEntry);
      hide ApplyAll, RawWrite, Outputs.EnterReadyToDrive;
      var engineReport, engineFinish := SetPowerOutput(Outputs.EnginePower, true, io.wires.engineOnOk);
      var dashReport, dashFinish := SetPowerOutput(Outputs.DashboardPower, true, io.wires.dashOnOk);
      if !io.wires.dashOnOk {
        AbandonDrive(engineReport, engineFinish, dashReport, io.wires.engineOffOk);
        return true;
      }
      if ev.Some? && (io.kickstandAtEntry != Some(false) || gate.rejected || !io.supplyAtEntry) {
        RetainInterlock(engineReport, engineFinish, dashReport, dashFinish, io.wires);
        return true;
      }
      var brakeReport := WriteOutputDeferredFault(Outputs.EngineBrake, io.leversAtEntry, io.wires.brakeOk);
      RunEffects([engineReport, engineFinish, dashReport, dashFinish, brakeReport]);
      return false;
    }

    method EnterReadyToDrive(ev: Option<Event>, io: V.Io)
      modifies this`out, this`gate, this`notReadyQueued, this`driveEnteredAt
      ensures driveEnteredAt == io.now
      ensures out == V.OutputsAfter(old(out), old(hold), old(gate), ReadyToDrive, ev, io)
      ensures gate == V.GateAfter(old(gate), old(hold), ReadyToDrive, io)
      ensures notReadyQueued == (old(notReadyQueued) || !(io.wires.dashOnOk && V.Rechecked(old(gate), ev, io)))
    {
      driveEnteredAt := io.now;
      UnlockHandlebarIfNeeded(io.lockSensor);
      var rejected := DriveOutputs(ev, io);
      if rejected { notReadyQueued := true; }
    }

    method EnterParked(io: V.Io)
      modifies this`out, this`gate
      ensures out == V.OutputsAfter(old(out), old(hold), old(gate), Parked, None, io)
      ensures gate == V.GateAfter(old(gate), old(hold), Parked, io)
    {
      ParkedPutsSettle(out, io.wires);
      WriteBrake(true, io.wires.brakeOk);
      if !io.wires.brakeOk {
        SetPower(Outputs.EnginePower, false, io.wires.engineOffOk);
        out := out.(ecuHeld := true);
      } else {
        SetPower(Outputs.EnginePower, true, io.wires.engineOnOk);
      }
      UnlockHandlebarIfNeeded(io.lockSensor);
      SetPower(Outputs.DashboardPower, true, io.wires.dashOnOk);
    }

    method EnterStandby(io: V.Io)
      modifies this`out, this`gate, this`hold, this`commit
      ensures out == V.OutputsAfter(old(out), old(hold), old(gate), Standby, None, io)
      ensures gate == V.GateAfter(old(gate), old(hold), Standby, io)
      ensures hold == DashboardHold.EnterStandby(old(hold)) && commit == Commitment.EnterStandby(old(commit))
    {
      Outputs.SingleWrite(out, Outputs.Write(Outputs.DashboardPower, false, io.wires.dashOffOk));
      if hold.updating || hold.mapDownloading {
        hold := hold.(deferred := Some(false));
      } else {
        SetPower(Outputs.DashboardPower, false, io.wires.dashOffOk);
      }
      commit := commit.(sent := false);
      if commit.pending {
        commit := commit.(pending := false);
        commit := commit.(replays := commit.replays + [commit.visit]);
      }
    }

    method StartMapHoldTimer()
      modifies this`hold
      ensures hold == DashboardHold.StartMapTimer(old(hold))
    {
      hold := hold.(mapGen := hold.mapGen + 1);
      hold := hold.(mapArmed := hold.mapArmed[hold.mapGen := hold.mapSession]);
    }

    /** A shutdown keeps a map hold, timed from now on, unless the vehicle hibernates; then it
        also ends an update whose install is free to be interrupted. */
    method ResolveHolds(hibernating: bool, installFree: bool) returns (held: bool)
      modifies this`hold
      ensures hold == DashboardHold.EnterShuttingDown(old(hold), hibernating, installFree)
      ensures held == DashboardHold.Held(hold)
    {
      var updating := hold.updating;
      var mapHolding := hold.mapDownloading && !hibernating;
      if mapHolding {
        StartMapHoldTimer();
      } else if hold.mapDownloading {
        hold := hold.(mapDownloading := false);
        hold := hold.(mapGen := hold.mapGen + 1);
      }
      if updating && hibernating && installFree {
        hold := hold.(updating := false, deferred := None);
        updating := false;
      }
      held := updating || mapHolding;
    }

    method EnterShuttingDown(io: V.Io)
      modifies this`out, this`gate, this`hold, this`commit
      ensures gate == old(gate)
      ensures out == V.OutputsAfter(old(out), old(hold), old(gate), ShuttingDown, None, io)
      ensures hold == V.HoldAfter(old(hold), ShuttingDown, intent.requested, io)
      ensures commit == V.CommitmentAfter(old(commit), old(hold), ShuttingDown, intent.requested, io)
    {
      commit := commit.(sent := false, pending := false, visit := commit.visit + 1);
      Outputs.SingleWrite(out, Outputs.Write(Outputs.EnginePower, false, io.wires.engineOffOk));
      SetPower(Outputs.EnginePower, false, io.wires.engineOffOk);
      var held := ResolveHolds(intent.requested, io.installFree);
      if !held && io.poweroffPublished {
        commit := commit.(sent := true);
      }
    }

    method EnterAtRest(now: int)
      modifies this`idle
      ensures idle == AutoStandby.EnterAtRest(old(idle), now)
    {
      if idle.seconds <= 0 { return; }
      idle := idle.(keyless := false);
      idle := idle.(deadline := Some(now + idle.seconds * SECOND));
    }

    method ExitAtRest()
      modifies this`idle
      ensures idle == AutoStandby.ExitAtRest(old(idle))
    {
      idle := idle.(deadline := None);
      idle := idle.(keyless := false);
    }

    // Hibernation intent

    method CancelHibernationRequest()
      modifies this`intent
      ensures intent == HibernationIntent.Cancel(old(intent))
    {
      var hibernating := intent.requested;
      if intent.physical { intent := intent.(cancelled := intent.cancelled + {intent.confirmed}); }
      intent := intent.(requested := false, physical := false);
      if hibernating { intent := intent.(cancelCommands := intent.cancelCommands + 1); }
    }

    method CompleteHibernationShutdown()
      modifies this`intent
      ensures intent == HibernationIntent.Complete(old(intent), vehicleState)
    {
      var physical := intent.physical;
      intent := intent.(physical := false, requested := false);
      if physical {
        intent := intent.(submitted := intent.submitted[intent.confirmed := vehicleState]);
        intent := intent.(manualCommands := intent.manualCommands + 1);
      }
    }

    method Act(a: Action)
      modifies this`intent
      ensures intent == HibernationIntent.Act(old(intent), a)
    {
      match a {
        case OnUnlock => CancelHibernationRequest();
        case OnHibernationComplete =>
          intent := intent.(physical := true, requested := true, confirmed := intent.confirmed + 1);
        case OnLockHibernate => intent := intent.(requested := true, physical := false);
        case _ =>
      }
    }

    // The machine

    /** The state-change callback. */
    method StateChanged(from: State, to: State, io: V.Io)
      modifies this`current, this`state, this`vehicleState, this`intent
      ensures Valid() && current == to
      ensures vehicleState == if io.statePublished then Shown(to) else old(vehicleState)
      ensures intent == HibernationIntent.Changed(old(intent), from, to, io.statePublished)
    {
      hide HibernationIntent.Complete;
      assert Shown(to) == ShownStandby <==> to == Standby;
      current := to;
      state := Shown(to);
      if io.statePublished {
        vehicleState := state;
        if state == ShownStandby && Shown(from) == ShownShuttingDown { CompleteHibernationShutdown(); }
      }
    }

    method EnterLeaf(t: State, ev: Option<Event>, io: V.Io)
      modifies this`out, this`gate, this`hold, this`commit, this`notReadyQueued, this`driveEnteredAt
      ensures out == V.OutputsAfter(old(out), old(hold), old(gate), t, ev, io)
      ensures gate == V.GateAfter(old(gate), old(hold), t, io)
      ensures hold == V.HoldAfter(old(hold), t, intent.requested, io)
      ensures commit == V.CommitmentAfter(old(commit), old(hold), t, intent.requested, io)
      ensures notReadyQueued ==
        (old(notReadyQueued) || (t == ReadyToDrive && !(io.wires.dashOnOk && V.Rechecked(old(gate), ev, io))))
    {
      match t {
        case Parked => EnterParked(io);
        case ReadyToDrive => EnterReadyToDrive(ev, io);
        case ShuttingDown => EnterShuttingDown(io);
        case Standby => EnterStandby(io);
        case _ =>
      }
    }

    method ExitStates(from: State, t: State)
      modifies this`idle
      ensures idle == if Exits(AtRest, from, t) then AutoStandby.ExitAtRest(old(idle)) else old(idle)
    {
      if Exits(AtRest, from, t) { ExitAtRest(); }
    }

    method EnterParent(from: State, t: State, now: int)
      modifies this`idle
      ensures idle == if Enters(AtRest, from, t) then AutoStandby.EnterAtRest(old(idle), now) else old(idle)
    {
      if Enters(AtRest, from, t) { EnterAtRest(now); }
    }

    /** The transition action between the exit and the entry actions of the parents. */
    method LeaveAndAct(t: State, a: Action, now: int)
      modifies this`idle, this`intent
      ensures idle == V.IdleAfter(old(idle), current, t, now)
      ensures intent == HibernationIntent.Act(old(intent), a)
    {
      ExitStates(current, t);
      Act(a);
      EnterParent(current, t, now);
    }

    method EnterStates(t: State, ev: Option<Event>, io: V.Io)
      modifies this`out, this`gate, this`hold, this`commit, this`notReadyQueued, this`driveEnteredAt
      ensures var enters := t != current || io.reentersSelf;
        && out == (if enters then V.OutputsAfter(old(out), old(hold), old(gate), t, ev, io) else old(out))
        && gate == (if enters then V.GateAfter(old(gate), old(hold), t, io) else old(gate))
        && hold == (if enters then V.HoldAfter(old(hold), t, intent.requested, io) else old(hold))
        && commit ==
             (if enters then V.CommitmentAfter(old(commit), old(hold), t, intent.requested, io) else old(commit))
        && notReadyQueued == (old(notReadyQueued)
             || (enters && t == ReadyToDrive && !(io.wires.dashOnOk && V.Rechecked(old(gate), ev, io))))
    {
      if t != current || io.reentersSelf { EnterLeaf(t, ev, io); }
    }

    /** Exit actions, transition action, entry actions, callback. */
    method Transition(t: State, a: Action, ev: Option<Event>, io: V.Io)
      requires Valid()
      modifies this
      ensures Valid() && Abs() == V.Move(old(Abs()), t, a, ev, io)
    {
      hide V.OutputsAfter, V.GateAfter, V.HoldAfter, V.CommitmentAfter, V.IdleAfter, V.Rechecked,
        HibernationIntent.Act, HibernationIntent.Changed;
      var from := current;
      LeaveAndAct(t, a, io.now);
      EnterStates(t, ev, io);
      StateChanged(from, t, io);
    }

    method EvaluateGuards(io: V.Io) returns (g: Guards)
      ensures g == V.GuardsOf(Abs(), io)
    {
      var supply, up := !gate.rejected && io.supply, io.kickstand == Some(false);
      g := Guards(up && gate.ready && gate.unlocked && supply, supply, up, io.kickstand != Some(false),
                  io.seatboxClosed, io.bothBrakes, !commit.sent, io.brakeHibernation, io.preparationCurrent);
    }

    method Fire(e: Event, io: V.Io)
      requires Valid()
      modifies this
      ensures Valid() && Abs() == V.Fire(old(Abs()), e, io)
    {
      var guards := EvaluateGuards(io);
      var row := Dispatch(current, e, guards);
      if row.Some? { Transition(row.value.target, row.value.action, Some(e), io); }
    }

    /** The not-ready event that an entry action queued is handled next. */
    method HandleQueued(next: V.Io)
      requires Valid()
      modifies this
      ensures Valid() && Abs() == V.Follow(old(Abs()), next)
    {
      hide V.Fire;
      if notReadyQueued {
        notReadyQueued := false;
        Fire(DashboardNotReady, next);
      }
    }

    method Send(e: Event, io: V.Io, next: V.Io)
      requires Valid()
      modifies this
      ensures Valid() && Abs() == V.Send(old(Abs()), e, io, next)
    {
      hide V.Fire, V.Follow;
      Fire(e, io);
      HandleQueued(next);
    }

    // Start and restore

    /** The two lines put where every state but drive agrees on, brake first. */
    method AssertMotorSafeOutputs(w: Outputs.Wires)
      modifies this`out, this`gate
      ensures Abs() == Startup.MadeSafe(old(Abs()), w)
    {
      WriteBrake(true, w.brakeOk);
      SetPower(Outputs.EnginePower, false, w.engineOffOk);
    }

    /** A ride without its supply is resumed as parked, and driving has to be asked for anew. */
    method ChooseRestoreState(f: Startup.Found) returns (restoreState: State)
      requires Restore.Restorable(f.saved)
      modifies this`gate
      ensures restoreState == Restore.Target(f.saved, f.supplied)
      ensures gate == old(gate).(rejected := old(gate).rejected || Startup.UnpoweredRide(f))
    {
      restoreState := Restore.StateOf(f.saved).value;
      if restoreState == ReadyToDrive && !f.supplied {
        restoreState := Parked;
        gate := gate.(rejected := true);
      }
    }

    /** Entering the saved state; a failure reported by the machine is made safe. */
    method ResumeSavedState(f: Startup.Found, io: V.Io, safe: Outputs.Wires)
      requires Valid() && Restore.Restorable(f.saved)
      modifies this
      ensures Valid() && Abs() == Startup.Resumed(old(Abs()), f, io, safe)
    {
      hide V.Move, Outputs.MotorSafe, Restore.Target;
      var restoreState := ChooseRestoreState(f);
      Transition(restoreState, NoAction, None, io);
      if f.setStateFails { AssertMotorSafeOutputs(safe); }
    }

    /** What a boot that survives does with the saved state and with the marker. */
    method RestoreFSMState(
        f: Startup.Found, redis: Restore.MarkerStore, store: Restore.Store, io: V.Io, safe: Outputs.Wires)
      requires Valid()
      modifies this, redis
      ensures var boot := Restore.Boot(f.saved, store, Restore.Survives);
        && Valid() && Abs() == Startup.Restored(old(Abs()), f, Restore.ReadOf(old(redis.attempt), boot), io, safe)
        && redis.attempt == Restore.MarkerAfter(old(redis.attempt), boot)
    {
      redis.Lapse(store.expired);
      if f.saved == Restore.Nothing || f.saved == Restore.Name(ShownShuttingDown) { return; }
      if f.saved == Restore.Name(ShownUpdating) || !Restore.Restorable(f.saved) {
        AssertMotorSafeOutputs(safe);
        return;
      }
      Restore.SurvivorsMarker(old(redis.attempt), Restore.Boot(f.saved, store, Restore.Survives));
      Attempt(f, redis, store, io, safe);
    }

    method Attempt(f: Startup.Found, redis: Restore.MarkerStore, store: Restore.Store, io: V.Io, safe: Outputs.Wires)
      requires Valid() && Restore.Restorable(f.saved)
      modifies this, redis
      ensures Valid()
      ensures var read, was := if store.readOk then old(redis.attempt) else None, old(redis.attempt);
        if read == Some(f.saved)
        then Abs() == Startup.MadeSafe(old(Abs()), safe) && redis.attempt == if store.clearOk then None else was
        else Abs() == Startup.Resumed(old(Abs()), f, io, safe)
             && redis.attempt == if store.clearOk then None else if store.setOk then Some(f.saved) else was
    {
      var attempt := redis.Get(store.readOk);
      if attempt == Some(f.saved) {
        redis.Clear(store.clearOk);
        AssertMotorSafeOutputs(safe);
        return;
      }
      redis.Set(f.saved, store.setOk);
      ResumeSavedState(f, io, safe);
      redis.Clear(store.clearOk);
    }

    /** After the restore: the queued event, the lock sensor, the brake, and a shutdown that
        was interrupted. */
    method FinishStart(f: Startup.Found, ios: Startup.Ios)
      requires Valid()
      modifies this
      ensures Valid() && Abs() == Startup.Closed(V.Follow(old(Abs()), ios.next), f, ios)
    {
      hide V.Follow, V.Move;
      HandleQueued(ios.next);
      if ios.lockSensor.Some? { gate := gate.(unlocked := ios.lockSensor.value); }
      if current != ReadyToDrive { WriteBrake(true, ios.brakeOk); }
      var restoredInto := current;
      if restoredInto != ReadyToDrive && restoredInto != Parked && f.saved == Restore.Name(ShownShuttingDown) {
        Transition(ShuttingDown, NoAction, None, ios.shutdown);
      }
      vehicleState := state;
    }

    /** The initial line values, and what is published of them. */
    method SetUpLines(f: Startup.Found)
      modifies this`out
      ensures out == Startup.FreshLines(f)
    {
      out := Outputs.ALL_OFF.(enginePublished := f.enginePublished, dashPublished := f.dashPublished);
      if f.saved != Restore.Nothing && f.saved != Restore.Name(ShownShuttingDown) {
        var dashboardPower := f.dashboard || f.updating;
        out := out.(dash := out.dash.(level := dashboardPower));
        var enginePower := Startup.ComesUpPowered(f.saved);
        out := out.(engine := out.engine.(level := enginePower), enginePublished := enginePower);
      }
    }

    /** The lines, and the settings and flags that are read. */
    method SetUp(f: Startup.Found)
      modifies this
      ensures Valid() && Abs() == Startup.Fresh(f)
    {
      hide Startup.FreshLines, DashboardHold.StartDbc;
      current, state, vehicleState, notReadyQueued := Standby, ShownStandby, f.published, false;
      commit, intent, hold := Commitment.FRESH, HibernationIntent.NO_INTENT, DashboardHold.NO_HOLD;
      idle := AutoStandby.Idle(f.seconds, None, false, f.graceSeconds, AutoStandby.Unknown);
      gate := V.Gate(f.ready, f.unlocked, false);
      if f.updating { hold := DashboardHold.StartDbc(hold); }
      SetUpLines(f);
    }

    method Start(f: Startup.Found, redis: Restore.MarkerStore, store: Restore.Store, ios: Startup.Ios)
      modifies this, redis
      ensures var boot := Restore.Boot(f.saved, store, Restore.Survives);
        && Valid() && Abs() == Startup.Booted(f, Restore.ReadOf(old(redis.attempt), boot), ios)
        && redis.attempt == Restore.MarkerAfter(old(redis.attempt), boot)
    {
      hide Startup.Fresh, Startup.Restored, Startup.Closed, V.Follow, Restore.MarkerAfter, Restore.ReadOf;
      SetUp(f);
      EnterStandby(ios.start);
      RestoreFSMState(f, redis, store, ios.restore, ios.safe);
      FinishStart(f, ios);
    }

    // Handlers and timers

    /** An unlock request: queued during a committed shutdown, an event otherwise. */
    method HandleUnlockRequest(io: V.Io, next: V.Io)
      requires Valid()
      modifies this
      ensures Valid() && Abs() == V.OnUnlockRequest(old(Abs()), io, next)
    {
      if current == ShuttingDown && commit.sent {
        CancelHibernationRequest();
        commit := commit.(pending := true, deferredIn := commit.deferredIn + {commit.visit});
        return;
      }
      Send(Unlock, io, next);
    }

    method StartDbcUpdate(io: V.Io)
      modifies this`hold, this`out, this`gate
      ensures hold == DashboardHold.StartDbc(old(hold)) && gate == old(gate)
      ensures out == Outputs.PowerDashboard(old(out), io.wires)
    {
      hold := hold.(updating := true, dogSession := hold.dogSession + 1);
      hold := hold.(dogGen := hold.dogGen + 1);
      hold := hold.(dogArmed := hold.dogArmed[hold.dogGen := hold.dogSession]);
      PowerDashboard(io);
    }

    method PowerDashboard(io: V.Io)
      modifies this`out, this`gate
      ensures gate == old(gate) && out == Outputs.PowerDashboard(old(out), io.wires)
    {
      Outputs.SingleWrite(out, Outputs.Write(Outputs.DashboardPower, true, io.wires.dashOnOk));
      SetPower(Outputs.DashboardPower, true, io.wires.dashOnOk);
    }

    method EndDbcUpdate()
      modifies this`hold
      ensures hold == DashboardHold.CompleteDbc(old(hold))
    {
      hold := hold.(updating := false);
      hold := hold.(deferred := None);
    }

    method CompleteDbcUpdate(io: V.Io, next: V.Io)
      requires Valid()
      modifies this
      ensures Valid() && Abs() == V.OnCompleteDbc(old(Abs()), io, next)
    {
      hide V.Send, DashboardHold.CompleteDbc, Outputs.PowerDashboard;
      var deferredPower, seen := hold.deferred, state;
      EndDbcUpdate();
      if deferredPower == Some(true) {
        PowerDashboard(io);
        return;
      }
      if seen == ShownStandby { Send(DbcUpdateComplete, io, next); }
    }

    method HoldForMapDownload()
      modifies this`hold
      ensures hold == DashboardHold.RequestMap(old(hold))
    {
      var already := hold.mapDownloading;
      hold := hold.(mapDownloading := true);
      if !already { hold := hold.(mapSession := hold.mapSession + 1); }
    }

    /** Ends the map hold and carries out whatever it deferred. */
    method ReleaseMapDownloadHold(io: V.Io)
      requires Valid()
      modifies this`hold, this`out, this`gate
      ensures Abs() == V.OnRelease(old(Abs()), io)
    {
      if !hold.mapDownloading { return; }
      var updating, deferredPower := hold.updating, hold.deferred;
      hold := hold.(mapDownloading := false);
      hold := hold.(mapGen := hold.mapGen + 1);
      if updating { return; }
      hold := hold.(deferred := None);
      if deferredPower == None { return; }
      if deferredPower.value {
        PowerDashboard(io);
        return;
      }
      if state != ShownStandby { return; }
      hold := hold.(cutsDue := hold.cutsDue + 1);
    }

    method MapHoldExpires(gen: nat, io: V.Io)
      requires Valid()
      modifies this`hold, this`out, this`gate
      ensures Abs() == if gen == old(hold).mapGen then V.OnRelease(old(Abs()), io) else old(Abs())
    {
      if hold.mapGen != gen { return; }
      ReleaseMapDownloadHold(io);
    }

    method HandleDbcWatchdogTimeout(io: V.Io)
      requires Valid()
      modifies this`hold, this`out, this`gate
      ensures Abs() == V.OnWatchdog(old(Abs()), io)
    {
      if !hold.updating { return; }
      var deferredPower, mapDownloading := hold.deferred, hold.mapDownloading;
      hold := hold.(updating := false, deferred := None);
      if deferredPower == Some(true) { PowerDashboard(io); }
      if DashboardHold.ShouldPowerOffAfterWatchdog(state, deferredPower, mapDownloading) {
        hold := hold.(cutsDue := hold.cutsDue + 1);
      }
    }

    method WatchdogExpires(gen: nat, io: V.Io)
      requires Valid()
      modifies this`hold, this`out, this`gate
      ensures Abs() == if gen == old(hold).dogGen then V.OnWatchdog(old(Abs()), io) else old(Abs())
    {
      if hold.dogGen != gen { return; }
      HandleDbcWatchdogTimeout(io);
    }

    method ScheduledCut(io: V.Io)
      modifies this`hold, this`out, this`gate
      ensures Abs() == V.OnCut(old(Abs()), io)
    {
      if hold.cutsDue == 0 { return; }
      hold := hold.(cutsDue := hold.cutsDue - 1);
      Outputs.SingleWrite(out, Outputs.Write(Outputs.DashboardPower, false, io.wires.dashOffOk));
      SetPower(Outputs.DashboardPower, false, io.wires.dashOffOk);
    }

    // Auto-standby

    method StartStandbyCountdown(seconds: int, now: int)
      modifies this`idle
      ensures idle == AutoStandby.Countdown(old(idle), seconds, now)
    {
      if seconds <= 0 { return; }
      idle := idle.(deadline := Some(now + seconds * SECOND));
    }

    method StartAutoStandbyTimer(now: int)
      requires Valid()
      modifies this`idle
      ensures idle == AutoStandby.StartIdle(old(idle), Shown(current), now)
    {
      if state != ShownParked { return; }
      StartStandbyCountdown(idle.seconds, now);
    }

    method CancelAutoStandbyTimer()
      modifies this`idle
      ensures idle == old(idle).(deadline := None)
    {
      idle := idle.(deadline := None);
    }

    method ClearKeylessCountdown(now: int)
      requires Valid()
      modifies this`idle
      ensures idle == AutoStandby.ClearKeyless(old(idle), Shown(current), now)
    {
      idle := idle.(keyless := false);
      CancelAutoStandbyTimer();
      if state == ShownParked && idle.seconds > 0 { StartAutoStandbyTimer(now); }
    }

    method ResetAutoStandbyTimer(now: int)
      requires Valid()
      modifies this`idle
      ensures idle == AutoStandby.Interaction(old(idle), Shown(current), now)
    {
      if idle.keyless {
        ClearKeylessCountdown(now);
        return;
      }
      if state != ShownParked || idle.seconds <= 0 { return; }
      CancelAutoStandbyTimer();
      StartAutoStandbyTimer(now);
    }

    method HandleBleStatusChange(status: AutoStandby.Ble, now: int)
      requires Valid()
      modifies this`idle
      ensures idle == AutoStandby.BleChange(old(idle), status, Shown(current), now)
    {
      var prev, countingDown, graceSeconds := idle.lastBle, idle.keyless, idle.graceSeconds;
      idle := idle.(lastBle := status);
      match status {
        case Disconnected =>
          if prev != AutoStandby.Connected || graceSeconds <= 0 || countingDown { return; }
          if state != ShownParked { return; }
          idle := idle.(keyless := true);
          CancelAutoStandbyTimer();
          StartStandbyCountdown(graceSeconds, now);
        case Connected => if countingDown { ClearKeylessCountdown(now); }
        case Unknown =>
      }
    }

    method HandleSettingsUpdate(change: AutoStandby.Stimulus, now: int)
      requires Valid() && change != AutoStandby.Touch
      modifies this`idle
      ensures idle == AutoStandby.React(old(idle), change, current, now)
    {
      match change {
        case Seconds(n) =>
          var oldSeconds := idle.seconds;
          idle := idle.(seconds := n);
          if state == ShownParked {
            if n > 0 && oldSeconds != n {
              CancelAutoStandbyTimer();
              StartAutoStandbyTimer(now);
            } else if n == 0 {
              CancelAutoStandbyTimer();
            }
          }
        case Grace(n) =>
          var clamped := if n < 0 then 0 else n;
          if clamped > 0 && clamped < AutoStandby.MIN_GRACE_SECONDS { clamped := AutoStandby.MIN_GRACE_SECONDS; }
          idle := idle.(graceSeconds := clamped);
        case BleStatus(status) => HandleBleStatusChange(status, now);
      }
    }

    // Sensors and the drive-start monitor

    /** The brake follows the edge, and the levers' event is sent once it has been written. */
    method HandleLeverEdge(levers: bool, io: V.Io) returns (sent: Option<Event>)
      requires Valid()
      modifies this`idle, this`out
      ensures Abs() == V.OnLeverEdge(old(Abs()), levers, io)
      ensures sent == if V.Quiet(current) || current == Standby || !io.wires.brakeOk then None
                      else Some(if io.bothBrakes then BrakesPressed else BrakesReleased)
    {
      if V.Quiet(current) || state == ShownStandby { return None; }
      if levers { ResetAutoStandbyTimer(io.now); }
      var engaged := if state == ShownReadyToDrive then levers else true;
      Outputs.SingleWrite(out, Outputs.Write(Outputs.EngineBrake, engaged, io.wires.brakeOk));
      WriteBrake(engaged, io.wires.brakeOk);
      if !io.wires.brakeOk { return None; }
      sent := Some(if io.bothBrakes then BrakesPressed else BrakesReleased);
    }

    /** A stand put down within the delay after a drive entry is checked again later. */
    predicate TooSoon(now: int)
      reads this
    {
      state == ShownReadyToDrive && StandDeferral.PARK_DEBOUNCE - (now - driveEnteredAt) > 0
    }

    method HandleKickstandEdge(down: bool, io: V.Io) returns (sent: Option<Event>)
      requires Valid()
      modifies this`idle, this`gate, this`stand
      ensures Abs() == V.OnKickstandEdge(old(Abs()), down, io)
      ensures var edge := StandDeferral.Edge(down, old(TooSoon(io.now)));
        if V.Quiet(current) then stand == old(stand) && sent == None
        else
          stand == StandDeferral.Step(old(stand), edge)
          && sent == if StandDeferral.Deferred(edge) then None else Some(if down then KickstandDown else KickstandUp)
    {
      if V.Quiet(current) { return None; }
      ResetAutoStandbyTimer(io.now);
      stand := stand.(edge := Some(down), pending := false);
      if down {
        gate := gate.(rejected := false);
        if TooSoon(io.now) {
          stand := stand.(pending := true);
          return None;
        }
      }
      stand := stand.(told := Some(down));
      sent := Some(if down then KickstandDown else KickstandUp);
    }

    /** The deferred check: the stand is read again, and sent if it is still down. */
    method StandDelayElapses(reading: Option<bool>) returns (sent: Option<Event>)
      modifies this`stand
      ensures stand == StandDeferral.Step(old(stand), StandDeferral.Elapses(reading))
      ensures sent == if old(stand).pending && reading == Some(true) then Some(KickstandDown) else None
    {
      if !stand.pending { return None; }
      stand := stand.(pending := false);
      if reading != Some(true) { return None; }
      stand := stand.(told := Some(true));
      sent := Some(KickstandDown);
    }

    method HandleSeatboxPress(io: V.Io)
      requires Valid()
      modifies this`idle
      ensures Abs() == if old(current) == Standby then old(Abs()) else V.Touch(old(Abs()), io)
    {
      if V.Quiet(current) || state == ShownStandby { return; }
      ResetAutoStandbyTimer(io.now);
    }

    /** One tick of the monitor: the warning it publishes and whether it asks for drive. */
    method CheckDriveStart(io: V.Io) returns (status: DriveStartStatus, ask: bool)
      requires Valid()
      modifies this`gate
      ensures Abs() == V.OnMonitorTick(old(Abs()), io)
      ensures status == TimedOut <==> current == Parked && io.kickstand == Some(false) && gate.rejected
      ensures status == WaitingBattery <==>
        current == Parked && io.kickstand == Some(false) && !gate.rejected && !io.supply
      ensures ask <==> current == Parked && V.GuardsOf(Abs(), io).canEnterReadyToDrive
    {
      ask := false;
      if io.kickstand == Some(true) || current == Standby || current == ShuttingDown {
        gate := gate.(rejected := false);
      }
      if current != Parked || io.kickstand != Some(false) { return NoWarning, false; }
      if gate.rejected { return TimedOut, false; }
      if !io.supply { return WaitingBattery, false; }
      status := NoWarning;
      ask := gate.ready && gate.unlocked;
    }

    // One stimulus, and whole runs

    method HandleReading(r: V.Reading, io: V.Io)
      requires Valid()
      modifies this`idle, this`out, this`gate, this`stand
      ensures Abs() == V.OnReading(old(Abs()), r, io)
    {
      match r {
        case LeverEdge(levers) => var _ := HandleLeverEdge(levers, io);
        case KickstandEdge(down) => var _ := HandleKickstandEdge(down, io);
        case SeatboxPress => HandleSeatboxPress(io);
        case MonitorTick => var _, _ := CheckDriveStart(io);
        case ReadyFlag(ready) => gate := gate.(ready := ready);
        case LockSensorEdge(unlocked) => gate := gate.(unlocked := unlocked);
        case Setting(change) =>
          if change == AutoStandby.Touch {
            if !V.Quiet(current) { ResetAutoStandbyTimer(io.now); }
          } else {
            HandleSettingsUpdate(change, io.now);
          }
      }
    }

    method HandleRail(d: V.RailRequest, io: V.Io, next: V.Io)
      requires Valid()
      modifies this
      ensures Valid() && Abs() == V.OnRail(old(Abs()), d, io, next)
    {
      match d {
        case StartDbc => StartDbcUpdate(io);
        case CompleteDbc => CompleteDbcUpdate(io, next);
        case RequestMap => HoldForMapDownload();
        case ReleaseMap => ReleaseMapDownloadHold(io);
        case MapExpires(gen) => MapHoldExpires(gen, io);
        case WatchdogExpires(gen) => WatchdogExpires(gen, io);
        case CutFires => ScheduledCut(io);
      }
    }

    method Handle(s: V.Stimulus, io: V.Io, next: V.Io)
      requires Valid()
      modifies this
      ensures Valid() && Abs() == V.Step(old(Abs()), s, io, next)
    {
      match s {
        case Deliver(e) => Send(e, io, next);
        case UnlockRequest => HandleUnlockRequest(io, next);
        case CountdownFires =>
          if idle.deadline == None { return; }
          CancelAutoStandbyTimer();
          Send(AutoStandbyTimeout, io, next);
        case Input(r) => HandleReading(r, io);
        case Rail(d) => HandleRail(d, io, next);
      }
    }

    method HandleAll(ms: seq<V.Moment>)
      requires Valid()
      modifies this
      ensures Valid() && Abs() == V.Run(old(Abs()), ms)
    {
      var i := 0;
      while i < |ms|
        invariant 0 <= i <= |ms| && Valid()
        invariant Abs() == V.Run(old(Abs()), ms[..i])
      {
        assert ms[..i + 1][..i] == ms[..i];
        Handle(ms[i].s, ms[i].io, ms[i].next);
        i := i + 1;
      }
      assert ms[..i] == ms;
    }
  }
}
