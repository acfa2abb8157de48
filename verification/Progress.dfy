/** Left alone, the vehicle goes to sleep: with nothing but its own timers ringing, every
    state that has one reaches stand-by in bounded time. */
module Progress {
  import opened Definition
  import opened Vehicle
  import AutoStandby

  /** The part of a vehicle that its timers depend on. `entered` is when the state was
      entered, `forced` whether the forced-hibernation timer has rung since. */
  datatype Clock = Clock(st: State, idle: AutoStandby.Idle, entered: int, forced: bool, now: int)

  datatype Clocked = Clocked(v: Vehicle, entered: int, forced: bool, now: int)
  {
    function View(): Clock { Clock(v.st, v.idle, entered, forced, now) }
  }

  type Alarm = Option<(int, Event)>

  function Earlier(a: Alarm, b: Alarm): Alarm {
    if a == None || (b.Some? && b.value.0 < a.value.0) then b else a
  }

  function StateAlarm(k: Clock): Alarm {
    match Timeout(k.st)
    case None => None
    case Some((after, e)) => Some((k.entered + after, e))
  }

  function CountdownAlarm(k: Clock): Alarm {
    if k.idle.deadline == None then None else Some((k.idle.deadline.value, AutoStandbyTimeout))
  }

  /** A second timer of the confirming state, beside its timeout. */
  function ForceAlarm(k: Clock): Alarm {
    if k.st == AwaitingConfirm && !k.forced
    then Some((k.entered + HIBERNATION_FORCE_TIMEOUT, HibernationForceTimeout)) else None
  }

  function NextAlarm(k: Clock): Alarm {
    Earlier(Earlier(StateAlarm(k), CountdownAlarm(k)), ForceAlarm(k))
  }

  /** The earliest timer rings on time; readings and write results are arbitrary. */
  function Ring(c: Clocked, io: Io, next: Io): Clocked {
    match NextAlarm(c.View())
    case None => c
    case Some((at, e)) =>
      var v := if e == AutoStandbyTimeout
        then OnCountdown(c.v, io.(now := at), next) else Send(c.v, e, io.(now := at), next);
      if v.st != c.v.st then Clocked(v, at, false, at)
      else Clocked(v, c.entered, c.forced || e == HibernationForceTimeout, at)
  }

  function RingAll(c: Clocked, ios: seq<(Io, Io)>): Clocked
    decreases |ios|
  {
    if ios == [] then c else RingAll(Ring(c, ios[0].0, ios[0].1), ios[1..])
  }

  predicate Sleepless(st: State) { st == ReadyToDrive || st == HibernationSeatbox || st == Updating }

  /** Auto-standby is on, the countdown of a vehicle at rest is armed for no longer than its
      setting, and no timer is overdue. */
  ghost predicate Punctual(k: Clock) {
    && Leaf(k.st) && k.idle.OwnedBy(k.st) && !Sleepless(k.st) && k.idle.seconds > 0 && k.entered <= k.now
    && (Timeout(k.st).Some? ==> k.now <= k.entered + Timeout(k.st).value.0)
    && (InFamily(k.st, AtRest) ==>
          k.idle.deadline.Some? && k.now <= k.idle.deadline.value <= k.now + k.idle.seconds * SECOND)
    && (k.st == AwaitingConfirm && !k.forced ==> k.now <= k.entered + HIBERNATION_FORCE_TIMEOUT)
  }

  /** Milliseconds left, at most, until stand-by. */
  function Bound(k: Clock): int {
    var left := if Timeout(k.st).Some? then k.entered + Timeout(k.st).value.0 - k.now else 0;
    var rest := k.idle.seconds * SECOND + SHUTDOWN_TIMEOUT;
    match k.st
    case Standby => 0
    case ShuttingDown => left
    case WaitingSeatbox => left + SHUTDOWN_TIMEOUT
    case HibernationConfirm => left + SHUTDOWN_TIMEOUT
    case AwaitingConfirm => left + rest
    case InitialHold => left + HIBERNATION_CONFIRM_TIMEOUT + rest
    case _ => if k.idle.deadline.Some? then k.idle.deadline.value - k.now + SHUTDOWN_TIMEOUT else 0
  }

  /** Timers that ring, at most, until stand-by. */
  function Rank(k: Clock): nat {
    match k.st
    case Standby => 0
    case ShuttingDown => 1
    case AwaitingConfirm => if k.forced then 3 else 4
    case InitialHold => 5
    case _ => 2
  }

  /** What each timer leads to. */
  function TimerRow(st: State, e: Event): Row {
    if e == HibernationForceTimeout then Row({AreBrakesPressed}, HibernationConfirm, NoAction)
    else match st
      case ShuttingDown => Goto(Standby)
      case InitialHold => Goto(AwaitingConfirm)
      case HibernationConfirm => Row({}, ShuttingDown, OnHibernationComplete)
      case AwaitingConfirm => Goto(Parked)
      case _ => Goto(ShuttingDown)
  }

  predicate Rings(st: State, e: Event) {
    (Timeout(st).Some? && e == Timeout(st).value.1)
    || (st == AwaitingConfirm && e == HibernationForceTimeout)
    || (Parent(st) == Some(AtRest) && e == AutoStandbyTimeout)
  }

  lemma SoleRow(s: State, e: Event, row: Row, g: Guards)
    requires Candidates(s, e) == [row]
    ensures Dispatch(s, e, g) == if Admits(row, g) then Some(row) else None
  {
    assert FirstAdmitted([row][1..], g) == None;
  }

  lemma CountdownCandidate(st: State)
    requires Parent(st) == Some(AtRest)
    ensures Candidates(st, AutoStandbyTimeout) == [TimerRow(st, AutoStandbyTimeout)]
  {
    assert Rows(st, AutoStandbyTimeout) == [];
  }

  lemma AwaitingCandidate(e: Event)
    requires Rings(AwaitingConfirm, e)
    ensures Candidates(AwaitingConfirm, e) == [TimerRow(AwaitingConfirm, e)]
  {
  }

  lemma HoldCandidate(st: State, e: Event)
    requires Rings(st, e) && (st == InitialHold || st == HibernationConfirm)
    ensures Candidates(st, e) == [TimerRow(st, e)]
  {
  }

  lemma HibernationCandidate(st: State, e: Event)
    requires Rings(st, e) && Parent(st) == Some(Hibernation)
    ensures Candidates(st, e) == [TimerRow(st, e)]
  {
    hide Candidates, TimerRow;
    if st == AwaitingConfirm { AwaitingCandidate(e); } else { HoldCandidate(st, e); }
  }

  lemma LoneCandidate(st: State, e: Event)
    requires Rings(st, e) && Parent(st) == None
    ensures Candidates(st, e) == [TimerRow(st, e)]
  {
    assert Rows(st, e) == [TimerRow(st, e)];
  }

  lemma SoleCandidate(st: State, e: Event)
    requires Rings(st, e)
    ensures Candidates(st, e) == [TimerRow(st, e)]
  {
    hide Candidates, TimerRow;
    if Parent(st) == Some(AtRest) { CountdownCandidate(st); }
    else if Parent(st) == Some(Hibernation) { HibernationCandidate(st, e); }
    else { LoneCandidate(st, e); }
  }

  lemma TimersLead(st: State, e: Event, g: Guards)
    requires Rings(st, e)
    ensures e != HibernationForceTimeout ==> Dispatch(st, e, g) == Some(TimerRow(st, e))
    ensures e == HibernationForceTimeout ==>
      Dispatch(st, e, g) == if g.brakesPressed then Some(TimerRow(st, e)) else None
  {
    hide Candidates, Dispatch, Rings;
    var row := TimerRow(st, e);
    SoleCandidate(st, e);
    SoleRow(st, e, row, g);
    if e == HibernationForceTimeout { assert AreBrakesPressed in row.guards; }
  }

  /** The clock after a timer: only the forced hibernation depends on a reading, and it stays
      where it is when the levers have been let go. */
  function ClockAfter(k: Clock, at: int, e: Event, levers: bool): Clock {
    if e == HibernationForceTimeout && !levers then k.(forced := true, now := at)
    else
      var t, idle := TimerRow(k.st, e).target, if e == AutoStandbyTimeout then k.idle.(deadline := None) else k.idle;
      Clock(t, IdleAfter(idle, k.st, t, at), at, false, at)
  }

  lemma MoveFrame(v: Vehicle, t: State, a: Action, ev: Option<Event>, io: Io)
    requires t != ReadyToDrive && !v.notReadyQueued
    ensures var after := Move(v, t, a, ev, io);
      after.st == t && after.idle == IdleAfter(v.idle, v.st, t, io.now) && !after.notReadyQueued
  {
  }

  lemma TimerFire(v: Vehicle, e: Event, io: Io, next: Io)
    requires Rings(v.st, e) && !v.notReadyQueued
    ensures var row, t := TimerRow(v.st, e), Send(v, e, io, next);
      if e == HibernationForceTimeout && !io.bothBrakes then t == v
      else !t.notReadyQueued && t.st == row.target && t.idle == IdleAfter(v.idle, v.st, row.target, io.now)
  {
    var row := TimerRow(v.st, e);
    assert row.target != ReadyToDrive && GuardsOf(v, io).brakesPressed == io.bothBrakes;
    hide TimerRow, Rings, GuardsOf, Dispatch, Move, IdleAfter;
    TimersLead(v.st, e, GuardsOf(v, io));
    if e == HibernationForceTimeout && !io.bothBrakes {
      assert Fire(v, e, io) == v;
    } else {
      MoveFrame(v, row.target, row.action, Some(e), io);
      assert Fire(v, e, io) == Move(v, row.target, row.action, Some(e), io);
    }
  }

  lemma AlarmRings(k: Clock)
    requires Punctual(k) && k.st != Standby
    ensures NextAlarm(k).Some? && Rings(k.st, NextAlarm(k).value.1)
    ensures NextAlarm(k).value.1 == AutoStandbyTimeout ==> k.idle.deadline.Some?
  {
  }

  lemma TimerMovesOn(st: State, e: Event)
    requires Rings(st, e)
    ensures TimerRow(st, e).target != st
  {
  }

  lemma RingFollowsAlarm(c: Clocked, io: Io, next: Io, at: int, e: Event)
    requires NextAlarm(c.View()) == Some((at, e)) && Rings(c.v.st, e) && !c.v.notReadyQueued
    requires e == AutoStandbyTimeout ==> c.v.idle.deadline.Some?
    ensures var t := Ring(c, io, next); t.View() == ClockAfter(c.View(), at, e, io.bothBrakes) && !t.v.notReadyQueued
  {
    hide Send, NextAlarm, TimerRow, Rings, IdleAfter;
    TimerMovesOn(c.v.st, e);
    var v := if e == AutoStandbyTimeout then c.v.(idle := c.v.idle.(deadline := None)) else c.v;
    TimerFire(v, e, io.(now := at), next);
  }

  /** The vehicle's timers run like the clock. */
  lemma RingFollowsClock(c: Clocked, io: Io, next: Io)
    requires Punctual(c.View()) && c.v.st != Standby && !c.v.notReadyQueued
    ensures var k := c.View();
      NextAlarm(k).Some? && Rings(k.st, NextAlarm(k).value.1)
      && Ring(c, io, next).View() == ClockAfter(k, NextAlarm(k).value.0, NextAlarm(k).value.1, io.bothBrakes)
      && !Ring(c, io, next).v.notReadyQueued
  {
    hide Ring, NextAlarm, ClockAfter, Punctual, Rings;
    AlarmRings(c.View());
    var (at, e) := NextAlarm(c.View()).value;
    RingFollowsAlarm(c, io, next, at, e);
  }

  /** A timer brings stand-by nearer, in time and in number of timers. */
  ghost predicate Nearer(k: Clock, t: Clock) {
    Punctual(t) && t.now - k.now + Bound(t) <= Bound(k) && Rank(t) < Rank(k)
  }

  lemma RestIsProgress(k: Clock, levers: bool)
    requires Punctual(k) && InFamily(k.st, AtRest)
    ensures NextAlarm(k) == CountdownAlarm(k)
    ensures Nearer(k, ClockAfter(k, k.idle.deadline.value, AutoStandbyTimeout, levers))
  {
  }

  lemma WaitIsProgress(k: Clock, levers: bool)
    requires Punctual(k) && k.st == AwaitingConfirm
    ensures var (at, e) := NextAlarm(k).value; Nearer(k, ClockAfter(k, at, e, levers))
  {
  }

  lemma TimeoutIsProgress(k: Clock, levers: bool)
    requires Punctual(k) && k.st != Standby && k.st != AwaitingConfirm && !InFamily(k.st, AtRest)
    ensures var (at, e) := NextAlarm(k).value; Nearer(k, ClockAfter(k, at, e, levers))
  {
    assert NextAlarm(k) == StateAlarm(k);
  }

  lemma ClockIsProgress(k: Clock, levers: bool)
    requires Punctual(k) && k.st != Standby
    ensures var (at, e) := NextAlarm(k).value; Nearer(k, ClockAfter(k, at, e, levers))
  {
    if InFamily(k.st, AtRest) { RestIsProgress(k, levers); }
    else if k.st == AwaitingConfirm { WaitIsProgress(k, levers); }
    else { TimeoutIsProgress(k, levers); }
  }

  lemma BoundIsSmall(k: Clock)
    requires Punctual(k)
    ensures Rank(k) <= 5 && Bound(k) <= k.idle.seconds * SECOND + 50 * SECOND
    ensures k.st == Standby ==> Bound(k) == 0 && Rank(k) == 0
    ensures k.st != Standby ==> Rank(k) > 0
  {
  }

  lemma StandbyStays(c: Clocked, io: Io, next: Io)
    requires Punctual(c.View()) && c.v.st == Standby
    ensures Ring(c, io, next) == c
  {
    hide Send, OnCountdown;
  }

  /** Every vehicle that is not driving, updating or waiting for the seatbox is in stand-by
      after at most five timers and within the auto-standby setting plus 50 s, whatever the
      sensors read and whichever writes fail on the way. */
  lemma {:induction false} ReachesStandby(c: Clocked, ios: seq<(Io, Io)>)
    requires Punctual(c.View()) && !c.v.notReadyQueued && |ios| >= Rank(c.View())
    ensures var t := RingAll(c, ios); t.v.st == Standby && t.now <= c.now + Bound(c.View())
    ensures Rank(c.View()) <= 5 && Bound(c.View()) <= c.v.idle.seconds * SECOND + 50 * SECOND
    decreases |ios|
  {
    BoundIsSmall(c.View());
    if c.v.st == Standby {
      if ios != [] {
        StandbyStays(c, ios[0].0, ios[0].1);
        hide Ring, Punctual;
        ReachesStandby(c, ios[1..]);
      }
    } else {
      hide Ring, Punctual, Bound;
      RingFollowsClock(c, ios[0].0, ios[0].1);
      ClockIsProgress(c.View(), ios[0].0.bothBrakes);
      ReachesStandby(Ring(c, ios[0].0, ios[0].1), ios[1..]);
    }
  }

  /** The other states have no timer at all: alone, they last for ever. */
  lemma SleeplessStay(c: Clocked, io: Io, next: Io)
    requires c.v.idle.OwnedBy(c.v.st) && Sleepless(c.v.st)
    ensures Ring(c, io, next) == c
  {
  }
}
