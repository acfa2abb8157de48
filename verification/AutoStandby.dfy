/** The auto-standby countdown: armed on entry to the at-rest family, shared by the idle
    timeout and the lock-on-disconnect countdown. Deadlines are in milliseconds. */
module AutoStandby {
  import opened Definition

  datatype Ble = Unknown | Connected | Disconnected

  datatype Idle = Idle(seconds: int, deadline: Option<int>, keyless: bool, graceSeconds: int, lastBle: Ble)
  {
    ghost predicate Running() { deadline.Some? || keyless }

    /** The countdown runs only inside the at-rest family. */
    ghost predicate OwnedBy(st: State) { Running() ==> InFamily(st, AtRest) }
  }

  const MIN_GRACE_SECONDS := 5

  function Countdown(i: Idle, seconds: int, now: int): Idle {
    if seconds <= 0 then i else i.(deadline := Some(now + seconds * SECOND))
  }

  function EnterAtRest(i: Idle, now: int): Idle {
    if i.seconds <= 0 then i else Countdown(i.(keyless := false), i.seconds, now)
  }

  function ExitAtRest(i: Idle): Idle { i.(deadline := None, keyless := false) }

  function StartIdle(i: Idle, seen: SystemState, now: int): Idle {
    if seen != ShownParked then i else Countdown(i, i.seconds, now)
  }

  function ClearKeyless(i: Idle, seen: SystemState, now: int): Idle {
    StartIdle(i.(keyless := false, deadline := None), seen, now)
  }

  /** A rider touched a lever, the stand or the seatbox button. */
  function Interaction(i: Idle, seen: SystemState, now: int): Idle {
    if i.keyless then ClearKeyless(i, seen, now)
    else if seen != ShownParked || i.seconds <= 0 then i
    else StartIdle(i.(deadline := None), seen, now)
  }

  function BleChange(i: Idle, status: Ble, seen: SystemState, now: int): Idle {
    var j := i.(lastBle := status);
    match status
    case Disconnected =>
      if i.lastBle != Connected || i.graceSeconds <= 0 || i.keyless || seen != ShownParked then j
      else Countdown(j.(keyless := true, deadline := None), i.graceSeconds, now)
    case Connected => if i.keyless then ClearKeyless(j, seen, now) else j
    case Unknown => j
  }

  function SetSeconds(i: Idle, seconds: int, seen: SystemState, now: int): Idle {
    var j := i.(seconds := seconds);
    if seen != ShownParked then j
    else if seconds > 0 && i.seconds != seconds then StartIdle(j.(deadline := None), seen, now)
    else if seconds == 0 then j.(deadline := None)
    else j
  }

  function SetGrace(i: Idle, seconds: int): Idle {
    i.(graceSeconds := if seconds < 0 then 0
                       else if 0 < seconds < MIN_GRACE_SECONDS then MIN_GRACE_SECONDS else seconds)
  }

  datatype Stimulus =
    | Touch
    | BleStatus(status: Ble)
    | Seconds(n: int)
    | Grace(n: int)

  /** The locked and learning modes return before a touch reaches the countdown. */
  function React(i: Idle, s: Stimulus, st: State, now: int): Idle {
    match s
    case Touch => if st == HopOn || st == HopOnLearning then i else Interaction(i, Shown(st), now)
    case BleStatus(status) => BleChange(i, status, Shown(st), now)
    case Seconds(n) => SetSeconds(i, n, Shown(st), now)
    case Grace(n) => SetGrace(i, n)
  }

  /** The stimuli that start a countdown when the vehicle is shown as parked. */
  ghost predicate Starts(i: Idle, s: Stimulus) {
    match s
    case Touch => i.seconds > 0
    case BleStatus(status) => status == Disconnected && i.lastBle == Connected && i.graceSeconds > 0
    case Seconds(n) => n > 0 && i.seconds != n
    case Grace(n) => false
  }

  /** Ownership is lost exactly by starting a countdown in the silent initial hold, which
      is shown as parked although it is outside the at-rest family. */
  lemma OwnershipLostOnlyInInitialHold(i: Idle, s: Stimulus, st: State, now: int)
    requires i.OwnedBy(st) && Leaf(st)
    ensures React(i, s, st, now).OwnedBy(st) <==> !(st == InitialHold && Starts(i, s))
  {
  }

  /** In the locked and learning modes only a reconnect during a lock countdown moves the deadline. */
  lemma HopOnDeadlineUntouched(i: Idle, s: Stimulus, st: State, now: int)
    requires st == HopOn || st == HopOnLearning
    ensures React(i, s, st, now).deadline == i.deadline
      <==> !(s == BleStatus(Connected) && i.keyless && i.deadline.Some?)
  {
  }
}
