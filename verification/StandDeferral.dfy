/** A stand put down right after a drive entry is acted on only when a short delay is over
    and the stand is still read as down. */
module StandDeferral {
  import opened Definition
  import opened Vehicle
  import V = Vehicle
  import D = Debounce

  const PARK_DEBOUNCE := 1 * SECOND

  /** The last reported edge (true: down), the last event sent for one, and whether a
      deferred check is outstanding. */
  datatype Stand = Stand(edge: Option<bool>, told: Option<bool>, pending: bool)
  {
    /** What was sent last is what was reported last. */
    ghost predicate Settled() { told == edge }

    /** While a check is outstanding the stand was reported as down and that was not sent. */
    ghost predicate Valid() { if pending then edge == Some(true) && told != Some(true) else true }
  }

  datatype Op = Edge(down: bool, tooSoon: bool) | Elapses(reading: Option<bool>)

  predicate Deferred(op: Op) { op.Edge? && op.down && op.tooSoon }

  function Step(s: Stand, op: Op): Stand {
    match op
    case Edge(down, tooSoon) => Stand(Some(down), if down && tooSoon then s.told else Some(down), down && tooSoon)
    case Elapses(reading) =>
      if s.pending then s.(told := if reading == Some(true) then Some(true) else s.told, pending := false) else s
  }

  /** Edges that are reported differ from the one before. */
  predicate Possible(s: Stand, op: Op) { op.Edge? ==> s.edge != Some(op.down) }

  /** The deferred check reads the stand as up, or cannot read it. */
  predicate Loses(s: Stand, op: Op) { op.Elapses? && s.pending && op.reading != Some(true) }

  /** The last edge has been told or is about to be, unless a check has dropped it. */
  ghost predicate Kept(s: Stand) { s.Valid() && (s.Settled() || s.pending) }

  /** One step loses the stand exactly when the deferred check does not read it as down. */
  lemma StepKeeps(s: Stand, op: Op)
    requires Kept(s) && Possible(s, op)
    ensures Kept(Step(s, op)) <==> !Loses(s, op)
  {
  }

  function Run(s: Stand, ops: seq<Op>): Stand {
    if ops == [] then s else Step(Run(s, ops[..|ops| - 1]), ops[|ops| - 1])
  }

  /** So along every other run a quick flip is never lost: with no check outstanding, the
      last event sent is that of the last edge reported. */
  lemma {:induction false} RunKeeps(s: Stand, ops: seq<Op>)
    requires Kept(s)
    requires forall i | 0 <= i < |ops| :: Possible(Run(s, ops[..i]), ops[i]) && !Loses(Run(s, ops[..i]), ops[i])
    ensures Kept(Run(s, ops))
  {
    hide Step, Possible, Loses, Kept;
    if ops == [] {
    } else {
      var n := |ops| - 1;
      assert forall i | 0 <= i < n :: ops[..n][..i] == ops[..i] && ops[..n][i] == ops[i];
      RunKeeps(s, ops[..n]);
      StepKeeps(Run(s, ops[..n]), ops[n]);
    }
  }

  /** The check reads the cached state and not the reported one, so it can see a bounce that
      the line never reports: up when it is read, down again before the wait is over. */
  lemma BounceIsNotReported(l: D.Line, start: nat, look: nat, back: nat, wait: nat)
    requires D.Settled(l) && l.reported == Some(true) && l.duration.Some? && wait >= l.duration.value
    requires look + back < l.duration.value
    ensures var up := D.Step(l, start, D.Edge(false));
      var down := D.Step(up, look + back, D.Edge(true));
      var over := D.Step(down, wait, D.Expire(down.gen));
      !up.key && over.key && over.log == l.log && over.reported == Some(true)
  {
  }

  /** Then nothing is outstanding that would tell of the stand. */
  lemma BounceLosesStand(s: Stand)
    requires Kept(s) && s.pending
    ensures var t := Step(s, Elapses(Some(false)));
      t.edge == Some(true) && t.told != Some(true) && !t.pending && !Kept(t)
    ensures forall reading :: Step(Step(s, Elapses(Some(false))), Elapses(reading)) == Step(s, Elapses(Some(false)))
  {
  }

  /** A vehicle with its stand: an event of the stand reaches the machine only when an edge or
      a check sends it. */
  datatype Ride = Ride(v: Vehicle, stand: Stand)

  datatype Happening = StandEdge(down: bool, tooSoon: bool) | DelayOver(reading: Option<bool>) | Else(s: Stimulus)

  predicate OfStand(s: Stimulus) { s == Deliver(KickstandDown) || s == Deliver(KickstandUp) }

  predicate LeavesDrive(s: Stimulus) { s == Deliver(DashboardNotReady) || s == Deliver(ForceLock) }

  function Told(v: Vehicle, down: bool, io: Io, next: Io): Vehicle {
    Send(v, if down then KickstandDown else KickstandUp, io, next)
  }

  function Happens(r: Ride, h: Happening, io: Io, next: Io): Ride {
    match h
    case StandEdge(down, tooSoon) =>
      var touched := OnKickstandEdge(r.v, down, io);
      Ride(if Deferred(Edge(down, tooSoon)) then touched else Told(touched, down, io, next),
           Step(r.stand, Edge(down, tooSoon)))
    case DelayOver(reading) =>
      Ride(if r.stand.pending && reading == Some(true) then Told(r.v, true, io, next) else r.v,
           Step(r.stand, Elapses(reading)))
    case Else(s) => if OfStand(s) then r else r.(v := V.Step(r.v, s, io, next))
  }

  function Goes(r: Ride, hs: seq<(Happening, Io, Io)>): Ride {
    if hs == [] then r
    else var last := hs[|hs| - 1]; Happens(Goes(r, hs[..|hs| - 1]), last.0, last.1, last.2)
  }

  lemma DriveHasNoRow(e: Event, g: Guards)
    requires e != KickstandDown && e != DashboardNotReady && e != ForceLock
    ensures Dispatch(ReadyToDrive, e, g) == None
  {
    assert Candidates(ReadyToDrive, e) == [];
  }

  lemma DriveIgnores(v: Vehicle, e: Event, io: Io, next: Io)
    requires v.st == ReadyToDrive && !v.notReadyQueued
    requires e != KickstandDown && e != DashboardNotReady && e != ForceLock
    ensures Send(v, e, io, next) == v
  {
    hide Dispatch, GuardsOf;
    DriveHasNoRow(e, GuardsOf(v, io));
  }

  lemma DriveGoesOn(v: Vehicle, s: Stimulus, io: Io, next: Io)
    requires v.st == ReadyToDrive && !v.notReadyQueued && s != Deliver(KickstandDown) && !LeavesDrive(s)
    ensures var t := V.Step(v, s, io, next); t.st == ReadyToDrive && !t.notReadyQueued
  {
    hide Send;
    match s
    case Deliver(e) => DriveIgnores(v, e, io, next);
    case UnlockRequest => DriveIgnores(v, Unlock, io, next);
    case CountdownFires => DriveIgnores(v.(idle := v.idle.(deadline := None)), AutoStandbyTimeout, io, next);
    case _ =>
  }

  /** A stand that was lost in drive: reported as down, not told, and with no check to come. */
  ghost predicate LostInDrive(r: Ride) {
    r.v.st == ReadyToDrive && !r.v.notReadyQueued
    && r.stand.edge == Some(true) && r.stand.told != Some(true) && !r.stand.pending
  }

  /** From then on the vehicle stays in drive with its stand down, whatever happens, until the
      line reports another edge, the dashboard drops out or a forced lock is asked for. */
  lemma {:induction false} LostStandStaysInDrive(r: Ride, hs: seq<(Happening, Io, Io)>)
    requires LostInDrive(r)
    requires forall h | h in hs :: !h.0.StandEdge? && (h.0.Else? ==> !LeavesDrive(h.0.s))
    ensures LostInDrive(Goes(r, hs))
  {
    if hs == [] {
    } else {
      var front, last := hs[..|hs| - 1], hs[|hs| - 1];
      assert forall h | h in front :: h in hs;
      assert last in hs;
      LostStandStaysInDrive(r, front);
      if last.0.Else? && !OfStand(last.0.s) { DriveGoesOn(Goes(r, front).v, last.0.s, last.1, last.2); }
    }
  }
}
