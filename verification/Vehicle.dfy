/** The vehicle as a transition system: one step is one event or handler run to
    completion, with an event queued by an entry action handled in the same step.
    Everything the environment decides in a step is in its `Io`. */
module Vehicle {
  import opened Definition
  import Outputs
  import Commitment
  import HibernationIntent
  import DashboardHold
  import AutoStandby

  /** `rejected`: a restart found a drive without supply; no drive entry until a new request. */
  datatype Gate = Gate(ready: bool, unlocked: bool, rejected: bool)

  /** Readings and results of one transition. A sensor that cannot be read is `None`;
      the kickstand reads true when down. Guards see the first group, entry actions the
      second, because the entry action reads the sensors again. */
  datatype Io = Io(
    kickstand: Option<bool>, seatboxClosed: bool, bothBrakes: bool, supply: bool,
    preparationCurrent: bool, brakeHibernation: bool,
    kickstandAtEntry: Option<bool>, supplyAtEntry: bool, leversAtEntry: bool, lockSensor: Option<bool>,
    wires: Outputs.Wires, poweroffPublished: bool, statePublished: bool, installFree: bool,
    now: int, reentersSelf: bool)

  datatype Vehicle = Vehicle(
    st: State, published: SystemState,
    out: Outputs.Outputs, commit: Commitment.Commitment, intent: HibernationIntent.Intent,
    hold: DashboardHold.Hold, idle: AutoStandby.Idle, gate: Gate,
    notReadyQueued: bool)

  function GuardsOf(v: Vehicle, io: Io): Guards {
    var up, supply := io.kickstand == Some(false), !v.gate.rejected && io.supply;
    Guards(up && v.gate.ready && v.gate.unlocked && supply, supply, up, io.kickstand != Some(false),
           io.seatboxClosed, io.bothBrakes, !v.commit.sent, io.brakeHibernation, io.preparationCurrent)
  }

  /** The recheck before the motor is released; a restored drive has no event and skips it. */
  predicate Rechecked(g: Gate, ev: Option<Event>, io: Io) {
    ev == None || (io.kickstandAtEntry == Some(false) && !g.rejected && io.supplyAtEntry)
  }

  function OutputsAfter(
      o: Outputs.Outputs, h: DashboardHold.Hold, g: Gate, t: State, ev: Option<Event>, io: Io): Outputs.Outputs
  {
    match t
    case Parked => Outputs.EnterParked(o, io.wires)
    case ReadyToDrive => Outputs.EnterReadyToDrive(o, io.wires, Rechecked(g, ev, io), io.leversAtEntry)
    case ShuttingDown => Outputs.EnterShuttingDown(o, io.wires)
    case Standby => if DashboardHold.Held(h) then o else Outputs.CutDashboard(o, io.wires)
    case _ => o
  }

  function HoldAfter(h: DashboardHold.Hold, t: State, hibernating: bool, io: Io): DashboardHold.Hold {
    match t
    case ShuttingDown => DashboardHold.EnterShuttingDown(h, hibernating, io.installFree)
    case Standby => DashboardHold.EnterStandby(h)
    case _ => h
  }

  /** The halt command goes out only when nothing holds the dashboard any more. */
  function CommitmentAfter(
      c: Commitment.Commitment, h: DashboardHold.Hold, t: State, hibernating: bool, io: Io): Commitment.Commitment
  {
    match t
    case ShuttingDown =>
      Commitment.EnterShuttingDown(c, !DashboardHold.Held(HoldAfter(h, t, hibernating, io)) && io.poweroffPublished)
    case Standby => Commitment.EnterStandby(c)
    case _ => c
  }

  function IdleAfter(i: AutoStandby.Idle, from: State, to: State, now: int): AutoStandby.Idle {
    if Exits(AtRest, from, to) then AutoStandby.ExitAtRest(i)
    else if Enters(AtRest, from, to) then AutoStandby.EnterAtRest(i, now)
    else i
  }

  function GateAfter(g: Gate, h: DashboardHold.Hold, t: State, io: Io): Gate {
    match t
    case Parked => if io.lockSensor.Some? then g.(unlocked := io.lockSensor.value) else g
    case ReadyToDrive => if io.lockSensor.Some? then g.(unlocked := io.lockSensor.value) else g
    case Standby => if DashboardHold.Held(h) then g else g.(ready := false)
    case _ => g
  }

  /** One transition, concern by concern. */
  function Move(v: Vehicle, t: State, a: Action, ev: Option<Event>, io: Io): Vehicle {
    var enters, acted := t != v.st || io.reentersSelf, HibernationIntent.Act(v.intent, a);
    Vehicle(
      t, if io.statePublished then Shown(t) else v.published,
      if enters then OutputsAfter(v.out, v.hold, v.gate, t, ev, io) else v.out,
      if enters then CommitmentAfter(v.commit, v.hold, t, acted.requested, io) else v.commit,
      HibernationIntent.Changed(acted, v.st, t, io.statePublished),
      if enters then HoldAfter(v.hold, t, acted.requested, io) else v.hold,
      IdleAfter(v.idle, v.st, t, io.now),
      if enters then GateAfter(v.gate, v.hold, t, io) else v.gate,
      v.notReadyQueued || (enters && t == ReadyToDrive && !(io.wires.dashOnOk && Rechecked(v.gate, ev, io))))
  }

  function Fire(v: Vehicle, e: Event, io: Io): Vehicle {
    match Dispatch(v.st, e, GuardsOf(v, io))
    case None => v
    case Some(row) => Move(v, row.target, row.action, Some(e), io)
  }

  /** The not-ready event an entry action may have queued is handled next. */
  function Follow(v: Vehicle, next: Io): Vehicle {
    if v.notReadyQueued then Fire(v.(notReadyQueued := false), DashboardNotReady, next) else v
  }

  function Send(v: Vehicle, e: Event, io: Io, next: Io): Vehicle { Follow(Fire(v, e, io), next) }

  /** Sensors, switches, settings and the drive-start monitor. */
  datatype Reading =
    | LeverEdge(levers: bool)
    | KickstandEdge(down: bool)
    | SeatboxPress
    | MonitorTick
    | ReadyFlag(ready: bool)
    | LockSensorEdge(unlocked: bool)
    | Setting(change: AutoStandby.Stimulus)

  /** Requests and timers that concern dashboard power. */
  datatype RailRequest =
    | StartDbc
    | CompleteDbc
    | RequestMap
    | ReleaseMap
    | MapExpires(gen: nat)
    | WatchdogExpires(gen: nat)
    | CutFires

  datatype Stimulus =
    | Deliver(e: Event)
    | UnlockRequest
    | CountdownFires
    | Input(r: Reading)
    | Rail(d: RailRequest)

  predicate Quiet(st: State) { st == HopOn || st == HopOnLearning }

  function Touch(v: Vehicle, io: Io): Vehicle {
    v.(idle := AutoStandby.React(v.idle, AutoStandby.Touch, v.st, io.now))
  }

  function OnUnlockRequest(v: Vehicle, io: Io, next: Io): Vehicle {
    if v.st == ShuttingDown && v.commit.sent
    then v.(intent := HibernationIntent.Cancel(v.intent), commit := Commitment.Defer(v.commit))
    else Send(v, Unlock, io, next)
  }

  function OnLeverEdge(v: Vehicle, levers: bool, io: Io): Vehicle {
    if Quiet(v.st) || v.st == Standby then v
    else
      var touched := if levers then Touch(v, io) else v;
      touched.(out := Outputs.BrakeEdge(v.out, Shown(v.st), levers, io.wires.brakeOk))
  }

  function OnKickstandEdge(v: Vehicle, down: bool, io: Io): Vehicle {
    if Quiet(v.st) then v
    else
      var touched := Touch(v, io);
      if down then touched.(gate := touched.gate.(rejected := false)) else touched
  }

  predicate ObservesRequest(v: Vehicle, io: Io) {
    io.kickstand == Some(true) || v.st == Standby || v.st == ShuttingDown
  }

  function OnMonitorTick(v: Vehicle, io: Io): Vehicle {
    if ObservesRequest(v, io) then v.(gate := v.gate.(rejected := false)) else v
  }

  function OnCompleteDbc(v: Vehicle, io: Io, next: Io): Vehicle {
    var done := v.(hold := DashboardHold.CompleteDbc(v.hold));
    if v.hold.deferred == Some(true) then done.(out := Outputs.PowerDashboard(done.out, io.wires))
    else if v.st == Standby then Send(done, DbcUpdateComplete, io, next)
    else done
  }

  function OnRelease(v: Vehicle, io: Io): Vehicle {
    var released := v.(hold := DashboardHold.Release(v.hold, Shown(v.st)));
    if DashboardHold.ReleasePowersOn(v.hold)
    then released.(out := Outputs.PowerDashboard(v.out, io.wires)) else released
  }

  function OnWatchdog(v: Vehicle, io: Io): Vehicle {
    var cleared := v.(hold := DashboardHold.WatchdogTimeout(v.hold, Shown(v.st)));
    if v.hold.updating && v.hold.deferred == Some(true)
    then cleared.(out := Outputs.PowerDashboard(v.out, io.wires)) else cleared
  }

  function OnCut(v: Vehicle, io: Io): Vehicle {
    if v.hold.cutsDue == 0 then v
    else v.(hold := v.hold.(cutsDue := v.hold.cutsDue - 1),
            out := Outputs.CutDashboard(v.out, io.wires), gate := v.gate.(ready := false))
  }

  function OnReading(v: Vehicle, r: Reading, io: Io): Vehicle {
    match r
    case LeverEdge(levers) => OnLeverEdge(v, levers, io)
    case KickstandEdge(down) => OnKickstandEdge(v, down, io)
    case SeatboxPress => if v.st == Standby then v else Touch(v, io)
    case MonitorTick => OnMonitorTick(v, io)
    case ReadyFlag(ready) => v.(gate := v.gate.(ready := ready))
    case LockSensorEdge(unlocked) => v.(gate := v.gate.(unlocked := unlocked))
    case Setting(change) => v.(idle := AutoStandby.React(v.idle, change, v.st, io.now))
  }

  function OnRail(v: Vehicle, d: RailRequest, io: Io, next: Io): Vehicle {
    match d
    case StartDbc => v.(hold := DashboardHold.StartDbc(v.hold), out := Outputs.PowerDashboard(v.out, io.wires))
    case CompleteDbc => OnCompleteDbc(v, io, next)
    case RequestMap => v.(hold := DashboardHold.RequestMap(v.hold))
    case ReleaseMap => OnRelease(v, io)
    case MapExpires(gen) => if gen == v.hold.mapGen then OnRelease(v, io) else v
    case WatchdogExpires(gen) => if gen == v.hold.dogGen then OnWatchdog(v, io) else v
    case CutFires => OnCut(v, io)
  }

  function OnCountdown(v: Vehicle, io: Io, next: Io): Vehicle {
    if v.idle.deadline == None then v
    else Send(v.(idle := v.idle.(deadline := None)), AutoStandbyTimeout, io, next)
  }

  function Step(v: Vehicle, s: Stimulus, io: Io, next: Io): Vehicle {
    match s
    case Deliver(e) => Send(v, e, io, next)
    case UnlockRequest => OnUnlockRequest(v, io, next)
    case CountdownFires => OnCountdown(v, io, next)
    case Input(r) => OnReading(v, r, io)
    case Rail(d) => OnRail(v, d, io, next)
  }

  datatype Moment = Moment(s: Stimulus, io: Io, next: Io)

  function Run(v: Vehicle, ms: seq<Moment>): Vehicle {
    if ms == [] then v
    else var m := ms[|ms| - 1]; Step(Run(v, ms[..|ms| - 1]), m.s, m.io, m.next)
  }
}
