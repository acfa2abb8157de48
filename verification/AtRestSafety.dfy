/** Who owns the auto-standby countdown, over whole runs. */
module AtRestSafety {
  import opened Definition
  import opened Vehicle
  import opened VehicleSafety
  import AutoStandby
  import DashboardHold

  ghost predicate Owned(v: Vehicle) { v.idle.OwnedBy(v.st) }

  /** A countdown started by this step if the vehicle is shown as parked. */
  ghost predicate StartsCountdown(v: Vehicle, s: Stimulus) {
    match s
    case Input(LeverEdge(levers)) => levers && AutoStandby.Starts(v.idle, AutoStandby.Touch)
    case Input(KickstandEdge(_)) => AutoStandby.Starts(v.idle, AutoStandby.Touch)
    case Input(SeatboxPress) => AutoStandby.Starts(v.idle, AutoStandby.Touch)
    case Input(Setting(change)) => AutoStandby.Starts(v.idle, change)
    case _ => false
  }

  /** The silent initial hold is shown as parked although it is outside the family. */
  ghost predicate LosesOwner(v: Vehicle, s: Stimulus) { v.st == InitialHold && StartsCountdown(v, s) }

  lemma FireKeepsOwned(v: Vehicle, e: Event, io: Io)
    requires Leaf(v.st) && Owned(v)
    ensures Leaf(Fire(v, e, io).st) && Owned(Fire(v, e, io))
    ensures InFamily(v.st, AtRest) && InFamily(Fire(v, e, io).st, AtRest) ==> Fire(v, e, io).idle == v.idle
  {
    DispatchIsLegal(v.st, e, GuardsOf(v, io));
    var picked := Dispatch(v.st, e, GuardsOf(v, io));
    if picked.Some? { FamilyBorder(v.st, picked.value.target); }
  }

  lemma SendKeepsOwned(v: Vehicle, e: Event, io: Io, next: Io)
    requires Leaf(v.st) && Owned(v)
    ensures Owned(Send(v, e, io, next))
  {
    hide Fire;
    FireKeepsOwned(v, e, io);
    FireKeepsOwned(Fire(v, e, io).(notReadyQueued := false), DashboardNotReady, next);
  }

  lemma ReadingOwned(v: Vehicle, r: Reading, io: Io)
    requires Leaf(v.st) && Owned(v)
    ensures Owned(OnReading(v, r, io)) <==> !LosesOwner(v, Input(r))
  {
    AutoStandby.OwnershipLostOnlyInInitialHold(v.idle, AutoStandby.Touch, v.st, io.now);
    if r.Setting? { AutoStandby.OwnershipLostOnlyInInitialHold(v.idle, r.change, v.st, io.now); }
  }

  lemma RailKeepsOwned(v: Vehicle, d: RailRequest, io: Io, next: Io)
    requires Leaf(v.st) && Owned(v)
    ensures Owned(OnRail(v, d, io, next))
  {
    hide Send;
    if d == CompleteDbc {
      SendKeepsOwned(v.(hold := DashboardHold.CompleteDbc(v.hold)), DbcUpdateComplete, io, next);
    }
  }

  /** One step loses ownership exactly when it starts a countdown in the initial hold. */
  lemma StepOwned(v: Vehicle, s: Stimulus, io: Io, next: Io)
    requires Bookkeeping(v) && Owned(v)
    ensures Owned(Step(v, s, io, next)) <==> !LosesOwner(v, s)
  {
    hide Send;
    match s
    case Deliver(e) => SendKeepsOwned(v, e, io, next);
    case UnlockRequest => SendKeepsOwned(v, Unlock, io, next);
    case CountdownFires => SendKeepsOwned(v.(idle := v.idle.(deadline := None)), AutoStandbyTimeout, io, next);
    case Input(r) => ReadingOwned(v, r, io);
    case Rail(d) => RailKeepsOwned(v, d, io, next);
  }

  /** So the countdown runs only in the at-rest family along every run without such a step. */
  lemma {:induction false} RunOwned(v: Vehicle, ms: seq<Moment>)
    requires Bookkeeping(v) && Owned(v)
    requires forall i | 0 <= i < |ms| :: !LosesOwner(Run(v, ms[..i]), ms[i].s)
    ensures Owned(Run(v, ms))
  {
    var inv := w => Bookkeeping(w) && Owned(w);
    var ok := (w, m: Moment) => !LosesOwner(w, m.s);
    forall w, m | inv(w) && ok(w, m) ensures inv(Step(w, m.s, m.io, m.next)) {
      StepKeepsBookkeeping(w, m.s, m.io, m.next);
      StepOwned(w, m.s, m.io, m.next);
    }
    RunInvariant(v, ms, inv, ok);
  }

  /** Engaging and releasing the locked and learning modes leaves the countdown alone, and
      inside them only a reconnect during a lock countdown moves the deadline. */
  lemma HopOnKeepsCountdown(v: Vehicle, e: Event, r: Reading, io: Io)
    requires Bookkeeping(v) && Owned(v)
    ensures InFamily(v.st, AtRest) && InFamily(Fire(v, e, io).st, AtRest) ==> Fire(v, e, io).idle == v.idle
    ensures Quiet(v.st) ==> (OnReading(v, r, io).idle.deadline == v.idle.deadline
      <==> !(r == Setting(AutoStandby.BleStatus(AutoStandby.Connected)) && v.idle.keyless && v.idle.deadline.Some?))
  {
    hide Fire;
    FireKeepsOwned(v, e, io);
    if Quiet(v.st) && r.Setting? { AutoStandby.HopOnDeadlineUntouched(v.idle, r.change, v.st, io.now); }
  }

  lemma BrakesPick(g: Guards)
    requires g.brakeHibernation && g.brakesPressed
    ensures Dispatch(Parked, BrakesPressed, g) ==
      Some(Row({IsBrakeHibernationEnabled, AreBrakesPressed}, InitialHold, NoAction))
  {
    assert Candidates(Parked, BrakesPressed)[0] ==
      Row({IsBrakeHibernationEnabled, AreBrakesPressed}, InitialHold, NoAction);
  }

  lemma HoldIsEntered(v: Vehicle, io: Io, next: Io)
    requires v.st == Parked && !v.notReadyQueued && io.brakeHibernation && io.bothBrakes
    ensures var t := Send(v, BrakesPressed, io, next); t.st == InitialHold && t.idle == AutoStandby.ExitAtRest(v.idle)
  {
    BrakesPick(GuardsOf(v, io));
    hide Dispatch;
  }

  lemma LeverStartsCountdown(v: Vehicle, io: Io)
    requires v.st == InitialHold && !v.idle.Running() && v.idle.seconds > 0
    ensures var t := OnLeverEdge(v, true, io); t.st == InitialHold && t.idle.deadline.Some?
  {
  }

  /** Two levers pulled in parked, then one more lever edge: the countdown is running
      outside the at-rest family, whether or not it was armed in parked. */
  lemma {:induction false} InitialHoldCounterexample(v: Vehicle, io: Io, next: Io)
    requires v.st == Parked && v.idle.seconds > 0
    requires !v.notReadyQueued && io.brakeHibernation && io.bothBrakes
    ensures var after := Run(v, [Moment(Deliver(BrakesPressed), io, next), Moment(Input(LeverEdge(true)), io, next)]);
      after.st == InitialHold && after.idle.deadline.Some? && !Owned(after)
  {
    hide Send, OnLeverEdge;
    var m1, m2 := Moment(Deliver(BrakesPressed), io, next), Moment(Input(LeverEdge(true)), io, next);
    HoldIsEntered(v, io, next);
    assert Run(v, []) == v;
    hide Run;
    RunSnoc(v, [], m1);
    RunSnoc(v, [m1], m2);
    assert [] + [m1] == [m1] && [m1] + [m2] == [m1, m2];
    LeverStartsCountdown(Run(v, [m1]), io);
  }
}
