/** A committed shutdown runs to its end; and what the handlers do when the machine moves
    between their reading of its state and their acting on it. */
module Interleavings {
  import opened Definition
  import opened Vehicle
  import opened VehicleSafety
  import opened DriveSafety
  import Outputs
  import Commitment
  import HibernationIntent
  import DashboardHold
  import AutoStandby

  /** From a committed shutdown there is one way on: it stays committed, keeping any unlock
      that is queued, or it reaches stand-by, which dispatches the replay. */
  ghost predicate Completes(v: Vehicle, t: Vehicle) {
    (t.st == ShuttingDown && t.commit.sent && t.commit.visit == v.commit.visit
     && (v.commit.pending ==> t.commit.pending) && t.commit.replays == v.commit.replays)
    || (t.st == Standby && t.commit.visit == v.commit.visit
        && t.commit.replays == v.commit.replays + if v.commit.pending then [v.commit.visit] else [])
  }

  lemma CommittedFire(v: Vehicle, e: Event, io: Io)
    requires Bookkeeping(v) && v.commit.sent
    ensures Completes(v, Fire(v, e, io)) && !Fire(v, e, io).notReadyQueued
  {
    DispatchIsLegal(v.st, e, GuardsOf(v, io));
  }

  lemma CommittedSend(v: Vehicle, e: Event, io: Io, next: Io)
    requires Bookkeeping(v) && v.commit.sent
    ensures Completes(v, Send(v, e, io, next))
  {
    hide Fire, Bookkeeping, Completes;
    CommittedFire(v, e, io);
  }

  lemma RailLeavesCommitment(v: Vehicle, d: RailRequest, io: Io, next: Io)
    requires v.st != Standby
    ensures var t := OnRail(v, d, io, next); t.st == v.st && t.commit == v.commit
  {
    hide Send;
  }

  lemma CommittedStep(v: Vehicle, s: Stimulus, io: Io, next: Io)
    requires Bookkeeping(v) && v.commit.sent
    ensures Completes(v, Step(v, s, io, next))
    ensures s == UnlockRequest ==> Step(v, s, io, next).commit.pending
  {
    hide Send;
    match s
    case Deliver(e) => CommittedSend(v, e, io, next);
    case UnlockRequest =>
    case CountdownFires => CommittedSend(v.(idle := v.idle.(deadline := None)), AutoStandbyTimeout, io, next);
    case Input(r) => ReadingFrame(v, r, io);
    case Rail(d) => RailLeavesCommitment(v, d, io, next);
  }

  ghost predicate Continues(c: Commitment.Commitment, d: Commitment.Commitment) {
    c.replays <= d.replays && d.visit >= c.visit
  }

  lemma FireContinues(v: Vehicle, e: Event, io: Io)
    ensures Continues(v.commit, Fire(v, e, io).commit)
  {
  }

  lemma SendContinues(v: Vehicle, e: Event, io: Io, next: Io)
    ensures Continues(v.commit, Send(v, e, io, next).commit)
  {
    hide Fire;
    FireContinues(v, e, io);
    FireContinues(Fire(v, e, io).(notReadyQueued := false), DashboardNotReady, next);
  }

  lemma RailContinues(v: Vehicle, d: RailRequest, io: Io, next: Io)
    ensures Continues(v.commit, OnRail(v, d, io, next).commit)
  {
    hide Send;
    if d == CompleteDbc {
      SendContinues(v.(hold := DashboardHold.CompleteDbc(v.hold)), DbcUpdateComplete, io, next);
    }
  }

  lemma UnlockContinues(v: Vehicle, io: Io, next: Io)
    ensures Continues(v.commit, OnUnlockRequest(v, io, next).commit)
  {
    hide Send;
    SendContinues(v, Unlock, io, next);
  }

  lemma CountdownContinues(v: Vehicle, io: Io, next: Io)
    ensures Continues(v.commit, OnCountdown(v, io, next).commit)
  {
    hide Send;
    SendContinues(v.(idle := v.idle.(deadline := None)), AutoStandbyTimeout, io, next);
  }

  lemma ReplaysStay(v: Vehicle, s: Stimulus, io: Io, next: Io)
    ensures Continues(v.commit, Step(v, s, io, next).commit)
  {
    hide Send;
    match s
    case Deliver(e) => SendContinues(v, e, io, next);
    case UnlockRequest => UnlockContinues(v, io, next);
    case CountdownFires => CountdownContinues(v, io, next);
    case Input(r) => ReadingFrame(v, r, io);
    case Rail(d) => RailContinues(v, d, io, next);
  }

  /** The unlock queued in a visit is still queued in it, or its replay has been dispatched. */
  ghost predicate QueuedOrReplayed(v: Vehicle, visit: nat) {
    (v.commit.pending && v.commit.visit == visit && v.st == ShuttingDown && visit !in v.commit.replays)
    || (visit in v.commit.replays && (v.commit.pending ==> v.commit.visit > visit))
  }

  lemma QueuedStays(v: Vehicle, t: Vehicle, visit: nat)
    requires Bookkeeping(v) && Bookkeeping(t) && QueuedOrReplayed(v, visit)
    requires v.commit.pending && v.commit.visit == visit ==> Completes(v, t)
    requires Continues(v.commit, t.commit)
    ensures QueuedOrReplayed(t, visit)
  {
  }

  /** An unlock queued in a committed shutdown is replayed when, and only when, the visit
      ends: along every run it is still queued, or its replay has been dispatched. */
  lemma {:induction false} QueuedUnlockIsReplayed(v: Vehicle, ms: seq<Moment>)
    requires Bookkeeping(v) && v.commit.pending
    ensures QueuedOrReplayed(Run(v, ms), v.commit.visit)
  {
    RunKeepsBookkeeping(v, ms);
    if ms == [] {
    } else {
      var front, m := ms[..|ms| - 1], ms[|ms| - 1];
      var before := Run(v, front);
      hide Step, QueuedOrReplayed, Completes, Continues;
      RunKeepsBookkeeping(v, front);
      QueuedUnlockIsReplayed(v, front);
      ReplaysStay(before, m.s, m.io, m.next);
      if before.commit.pending { CommittedStep(before, m.s, m.io, m.next); }
      QueuedStays(before, Step(before, m.s, m.io, m.next), v.commit.visit);
    }
  }

  /** The unlock handler reads the state and the commitment first and queues afterwards; by
      then the machine may have moved on. */
  function LateDeferral(v: Vehicle): Vehicle {
    v.(intent := HibernationIntent.Cancel(v.intent), commit := Commitment.Defer(v.commit))
  }

  /** That is harmless exactly while the shutdown is still committed. */
  lemma LateDeferralKeepsBooks(v: Vehicle)
    requires Bookkeeping(v)
    ensures Bookkeeping(LateDeferral(v)) <==> v.commit.sent
  {
    HibernationIntent.ActKeeps(v.intent, OnUnlock);
    if v.commit.sent { Commitment.DeferKeeps(v.commit, v.st); }
  }

  /** Otherwise, after stand-by has been entered, the unlock is queued with nobody left to
      replay it: the next shutdown forgets it. */
  lemma LateDeferralIsForgotten(v: Vehicle, published: bool)
    requires Bookkeeping(v) && v.st == Standby
    ensures var queued := LateDeferral(v).commit; var next := Commitment.EnterShuttingDown(queued, published);
      queued.pending && queued.visit in queued.deferredIn
      && !next.pending && next.replays == v.commit.replays
  {
  }

  lemma TimeoutEndsShutdown(v: Vehicle, io: Io, next: Io)
    requires Bookkeeping(v) && v.commit.sent
    ensures var w := Step(v, Deliver(ShutdownTimeout), io, next); w.st == Standby && !w.commit.sent
  {
    hide Dispatch, GuardsOf;
    ShutdownEnds(GuardsOf(v, io));
  }

  /** The shutdown's own timer is enough: it rings between the check and the act. */
  lemma {:induction false} LateDeferralIsReached(v: Vehicle, io: Io, next: Io)
    requires Bookkeeping(v) && v.commit.sent
    ensures var w := Run(v, [Moment(Deliver(ShutdownTimeout), io, next)]);
      w.st == Standby && Bookkeeping(w) && !Bookkeeping(LateDeferral(w)) && LateDeferral(w).commit.pending
  {
    var m := Moment(Deliver(ShutdownTimeout), io, next);
    var w := Step(v, m.s, io, next);
    RunSnoc(v, [], m);
    assert [] + [m] == [m];
    TimeoutEndsShutdown(v, io, next);
    StepKeepsBookkeeping(v, m.s, io, next);
    LateDeferralKeepsBooks(w);
    hide Bookkeeping, Step;
  }

  /** A lever edge handled after parked has been entered but before the handlers' copy of the
      state follows: with the copy still at drive and the levers released it lets go of the
      brake on a powered controller, and only then does it break the interlock. */
  lemma LaggingCopyReleasesBrake(v: Vehicle, io: Io, levers: bool, ok: bool)
    requires CutsSucceed(io)
    ensures var parked := Outputs.EnterParked(v.out, io.wires);
      parked.Interlock()
      && (Outputs.BrakeEdge(parked, ShownReadyToDrive, levers, ok).Interlock() <==>
            levers || !ok || !parked.engine.level)
      && Outputs.BrakeEdge(parked, ShownParked, levers, ok).Interlock()
  {
    var parked := Outputs.EnterParked(v.out, io.wires);
    Outputs.ParkedKeepsInterlock(v.out, io.wires, 0);
    Outputs.BrakeEdgeInterlock(parked, ShownReadyToDrive, levers, ok);
    Outputs.BrakeEdgeInterlock(parked, ShownParked, levers, ok);
  }

  /** Parked powers the controller whenever both writes succeed, so the window is real. */
  lemma LaggingWindowIsReal(v: Vehicle, io: Io)
    requires io.wires.brakeOk && io.wires.engineOnOk
    ensures Outputs.EnterParked(v.out, io.wires).engine.level
    ensures !Outputs.BrakeEdge(Outputs.EnterParked(v.out, io.wires), ShownReadyToDrive, false, true).Interlock()
  {
    var parked, ws := Outputs.EnterParked(v.out, io.wires), Outputs.ParkedWrites(io.wires);
    Outputs.SettleSteps(v.out, ws);
    assert Outputs.Settle(v.out, ws[..2]).engine.level;
    assert Outputs.Settle(v.out, ws[..3]) == Outputs.Then(v.out, Outputs.Settle(v.out, ws[..2]), ws[2]);
    Outputs.BrakeEdgeFrame(parked, ShownReadyToDrive, false, true);
  }

  // Handlers of the dashboard rail between stand-by's entry and the state-change callback

  /** Stand-by has deferred its power-off: the rail is up for a hold, and no cut is scheduled. */
  ghost predicate JustDeferred(v: Vehicle) {
    v.st == Standby && v.hold.deferred == Some(false) && v.hold.cutsDue == 0 && v.out.dash.level
  }

  /** The end of every shutdown that leaves a powered rail held does. */
  lemma HeldShutdownDefers(v: Vehicle, io: Io)
    requires v.st == ShuttingDown && DashboardHold.Held(v.hold) && v.hold.cutsDue == 0 && v.out.dash.level
    ensures JustDeferred(Fire(v, ShutdownTimeout, io))
  {
    hide Dispatch, GuardsOf;
    ShutdownEnds(GuardsOf(v, io));
  }

  ghost predicate RailOwned(v: Vehicle, h: DashboardHold.Hold) { h.RailOwned(v.st, v.out.dash.level) }

  /** The end of a map hold, alone, carries the deferral out exactly if the handlers' copy of
      the state says stand-by already. */
  lemma LaggingReleaseForgets(v: Vehicle, seen: SystemState)
    requires JustDeferred(v) && v.hold.mapDownloading && !v.hold.updating
    ensures RailOwned(v, DashboardHold.Release(v.hold, seen)) <==> seen == ShownStandby
  {
  }

  /** So does the watchdog of an update, alone. */
  lemma LaggingWatchdogForgets(v: Vehicle, seen: SystemState)
    requires JustDeferred(v) && v.hold.updating && !v.hold.mapDownloading
    ensures RailOwned(v, DashboardHold.WatchdogTimeout(v.hold, seen)) <==> seen == ShownStandby
  {
  }

  /** The end of an update, with the state that its handler reads. */
  function CompleteSeen(v: Vehicle, seen: SystemState, io: Io, next: Io): Vehicle {
    var done := v.(hold := DashboardHold.CompleteDbc(v.hold));
    if v.hold.deferred == Some(true) then done.(out := Outputs.PowerDashboard(done.out, io.wires))
    else if seen == ShownStandby then Send(done, DbcUpdateComplete, io, next)
    else done
  }

  /** And the end of an update: it starts the shutdown pass that cuts the rail, or forgets it. */
  lemma LaggingCompletionForgets(v: Vehicle, seen: SystemState, io: Io, next: Io)
    requires JustDeferred(v) && !v.notReadyQueued
    ensures var t := CompleteSeen(v, seen, io, next); RailOwned(t, t.hold) <==> seen == ShownStandby
    ensures CompleteSeen(v, Shown(v.st), io, next) == OnCompleteDbc(v, io, next)
  {
    var done := v.(hold := DashboardHold.CompleteDbc(v.hold));
    assert Dispatch(Standby, DbcUpdateComplete, GuardsOf(done, io)) == Some(Goto(ShuttingDown));
  }

  // Handlers of the countdown

  /** A touch or a disconnect handled with a copy of the state that lags starts a countdown
      outside the at-rest family exactly if the copy still says parked and the time is set. */
  lemma LaggingCountdownIsUnowned(i: AutoStandby.Idle, seen: SystemState, st: State, now: int)
    requires Leaf(st) && !i.Running()
    ensures AutoStandby.Interaction(i, seen, now).OwnedBy(st) <==>
      InFamily(st, AtRest) || seen != ShownParked || i.seconds <= 0
    ensures AutoStandby.BleChange(i, AutoStandby.Disconnected, seen, now).OwnedBy(st) <==>
      InFamily(st, AtRest) || seen != ShownParked || i.lastBle != AutoStandby.Connected || i.graceSeconds <= 0
  {
  }
}
