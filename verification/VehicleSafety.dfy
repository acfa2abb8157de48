/** What every step of the vehicle keeps, and what follows for whole runs. */
module VehicleSafety {
  import opened Definition
  import opened Vehicle
  import Commitment
  import HibernationIntent
  import DashboardHold

  /** Between steps: a real state, nothing queued, and the commitment, the hibernation
      intent and the hold timers in order. */
  ghost predicate Bookkeeping(v: Vehicle) {
    && Leaf(v.st) && v.st != Updating && !v.notReadyQueued
    && v.commit.Valid(v.st) && v.intent.Valid(v.st)
    && (v.commit.pending ==> !v.intent.requested)
    && v.hold.TimersCurrent() && v.hold.OnlyOffDeferred()
  }

  lemma CommitmentMoves(v: Vehicle, row: Row, hibernating: bool, io: Io, c: Commitment.Commitment)
    requires v.commit.Valid(v.st) && v.st != row.target && Legal(v.st, GuardsOf(v, io), row)
    requires c == CommitmentAfter(v.commit, v.hold, row.target, hibernating, io)
    ensures c.Valid(row.target) && !c.pending
    ensures v.commit.sent ==> row.target == Standby
  {
    if row.target == ShuttingDown {
      Commitment.ShuttingDownKeeps(v.commit, v.st, c.sent);
    } else if row.target == Standby {
      Commitment.StandbyKeeps(v.commit, v.st);
    }
  }

  lemma IntentMoves(
      h: HibernationIntent.Intent, s: State, row: Row, statePublished: bool, after: HibernationIntent.Intent)
    requires h.Valid(s) && s != row.target && LegalTarget(s, row.target) && LegalAction(s, row)
    requires after == HibernationIntent.Changed(HibernationIntent.Act(h, row.action), s, row.target, statePublished)
    ensures after.Valid(row.target)
  {
    HibernationIntent.ActKeeps(h, row.action);
    HibernationIntent.ChangedKeeps(HibernationIntent.Act(h, row.action), s, row.target, statePublished);
  }

  lemma HoldMoves(h: DashboardHold.Hold, t: State, hibernating: bool, io: Io, after: DashboardHold.Hold)
    requires h.TimersCurrent() && h.OnlyOffDeferred() && after == HoldAfter(h, t, hibernating, io)
    ensures after.TimersCurrent() && after.OnlyOffDeferred()
  {
    DashboardHold.EntriesKeepTimersCurrent(h, hibernating, io.installFree);
  }

  lemma MoveKeepsBookkeeping(v: Vehicle, row: Row, e: Event, io: Io)
    requires Bookkeeping(v) && Legal(v.st, GuardsOf(v, io), row)
    ensures var after := Move(v, row.target, row.action, Some(e), io);
      Bookkeeping(after.(notReadyQueued := false)) && (after.notReadyQueued ==> after.st == ReadyToDrive)
  {
    if row.target != v.st {
      var after := Move(v, row.target, row.action, Some(e), io);
      var hibernating := HibernationIntent.Act(v.intent, row.action).requested;
      HoldMoves(v.hold, row.target, hibernating, io, after.hold);
      CommitmentMoves(v, row, hibernating, io, after.commit);
      IntentMoves(v.intent, v.st, row, io.statePublished, after.intent);
    }
  }

  lemma FireKeepsBookkeeping(v: Vehicle, e: Event, io: Io)
    requires Bookkeeping(v)
    ensures var after := Fire(v, e, io);
      Bookkeeping(after.(notReadyQueued := false)) && (after.notReadyQueued ==> after.st == ReadyToDrive)
  {
    DispatchIsLegal(v.st, e, GuardsOf(v, io));
    var picked := Dispatch(v.st, e, GuardsOf(v, io));
    assert v.(notReadyQueued := false) == v;
    hide Bookkeeping, Move, Dispatch, GuardsOf, Legal;
    if picked.Some? { MoveKeepsBookkeeping(v, picked.value, e, io); }
  }

  /** The not-ready event is handled by parking. */
  lemma DroppedDriveParks(v: Vehicle, next: Io)
    requires v.st == ReadyToDrive && v.notReadyQueued
    ensures Follow(v, next) == Fire(v.(notReadyQueued := false), DashboardNotReady, next)
    ensures Follow(v, next) ==
      Move(v.(notReadyQueued := false), Parked, NoAction, Some(DashboardNotReady), next)
  {
    hide Dispatch, GuardsOf;
    DriveDrops(GuardsOf(v.(notReadyQueued := false), next));
  }

  lemma FollowKeepsBookkeeping(v: Vehicle, next: Io)
    requires Bookkeeping(v.(notReadyQueued := false)) && (v.notReadyQueued ==> v.st == ReadyToDrive)
    ensures Bookkeeping(Follow(v, next))
  {
    if v.notReadyQueued {
      var u := v.(notReadyQueued := false);
      DroppedDriveParks(v, next);
      DriveDrops(GuardsOf(u, next));
      DispatchIsLegal(v.st, DashboardNotReady, GuardsOf(u, next));
      hide Fire, Dispatch, Legal, GuardsOf, Follow;
      MoveKeepsBookkeeping(u, Goto(Parked), DashboardNotReady, next);
      assert Follow(v, next) == Follow(v, next).(notReadyQueued := false);
    } else {
      assert v == v.(notReadyQueued := false);
    }
  }

  lemma SendKeepsBookkeeping(v: Vehicle, e: Event, io: Io, next: Io)
    requires Bookkeeping(v)
    ensures Bookkeeping(Send(v, e, io, next))
  {
    hide Fire;
    FireKeepsBookkeeping(v, e, io);
    FollowKeepsBookkeeping(Fire(v, e, io), next);
  }

  /** Sensors and settings touch only outputs, countdown and gate. */
  lemma ReadingFrame(v: Vehicle, r: Reading, io: Io)
    ensures var after := OnReading(v, r, io);
      after == v.(out := after.out, idle := after.idle, gate := after.gate)
  {
  }

  lemma CompletionInOrder(v: Vehicle)
    requires Bookkeeping(v)
    ensures Bookkeeping(v.(hold := DashboardHold.CompleteDbc(v.hold)))
  {
    DashboardHold.HoldsKeepTimersCurrent(v.hold);
  }

  lemma CompletionKeepsBookkeeping(v: Vehicle, io: Io, next: Io)
    requires Bookkeeping(v)
    ensures Bookkeeping(OnCompleteDbc(v, io, next))
  {
    CompletionInOrder(v);
    hide Send;
    SendKeepsBookkeeping(v.(hold := DashboardHold.CompleteDbc(v.hold)), DbcUpdateComplete, io, next);
  }

  lemma HoldsStayInOrder(v: Vehicle, d: RailRequest, io: Io, next: Io)
    requires v.hold.TimersCurrent() && v.hold.OnlyOffDeferred() && d != CompleteDbc
    ensures var after := OnRail(v, d, io, next);
      after == v.(hold := after.hold, out := after.out, gate := after.gate)
      && after.hold.TimersCurrent() && after.hold.OnlyOffDeferred()
  {
    hide OnCompleteDbc;
    DashboardHold.HoldsKeepTimersCurrent(v.hold);
    DashboardHold.ReleasesKeepTimersCurrent(v.hold, Shown(v.st));
  }

  lemma RailKeepsBookkeeping(v: Vehicle, d: RailRequest, io: Io, next: Io)
    requires Bookkeeping(v)
    ensures Bookkeeping(OnRail(v, d, io, next))
  {
    hide OnCompleteDbc;
    if d == CompleteDbc {
      CompletionKeepsBookkeeping(v, io, next);
    } else {
      HoldsStayInOrder(v, d, io, next);
      hide OnRail;
    }
  }

  lemma UnlockKeepsBookkeeping(v: Vehicle, io: Io, next: Io)
    requires Bookkeeping(v)
    ensures Bookkeeping(OnUnlockRequest(v, io, next))
  {
    hide Send;
    if v.st == ShuttingDown && v.commit.sent {
      Commitment.DeferKeeps(v.commit, v.st);
      HibernationIntent.ActKeeps(v.intent, OnUnlock);
    } else {
      SendKeepsBookkeeping(v, Unlock, io, next);
    }
  }

  lemma StepKeepsBookkeeping(v: Vehicle, s: Stimulus, io: Io, next: Io)
    requires Bookkeeping(v)
    ensures Bookkeeping(Step(v, s, io, next))
  {
    hide Send;
    match s
    case Deliver(e) => SendKeepsBookkeeping(v, e, io, next);
    case UnlockRequest => UnlockKeepsBookkeeping(v, io, next);
    case CountdownFires => SendKeepsBookkeeping(v.(idle := v.idle.(deadline := None)), AutoStandbyTimeout, io, next);
    case Input(r) => ReadingFrame(v, r, io);
    case Rail(d) => RailKeepsBookkeeping(v, d, io, next);
  }

  lemma {:induction false} RunSnoc(v: Vehicle, ms: seq<Moment>, m: Moment)
    ensures Run(v, ms + [m]) == Step(Run(v, ms), m.s, m.io, m.next)
  {
    assert (ms + [m])[..|ms|] == ms;
  }

  ghost predicate Preserved(inv: Vehicle -> bool, ok: (Vehicle, Moment) -> bool) {
    forall v, m :: inv(v) && ok(v, m) ==> inv(Step(v, m.s, m.io, m.next))
  }

  ghost predicate Throughout(v: Vehicle, ms: seq<Moment>, ok: (Vehicle, Moment) -> bool) {
    forall i | 0 <= i < |ms| :: ok(Run(v, ms[..i]), ms[i])
  }

  lemma OneMoreStep(v: Vehicle, m: Moment, inv: Vehicle -> bool, ok: (Vehicle, Moment) -> bool)
    requires Preserved(inv, ok) && inv(v) && ok(v, m)
    ensures inv(Step(v, m.s, m.io, m.next))
  {
  }

  lemma {:induction false} ThroughoutFront(v: Vehicle, ms: seq<Moment>, ok: (Vehicle, Moment) -> bool)
    requires ms != [] && Throughout(v, ms, ok)
    ensures var n := |ms| - 1; Throughout(v, ms[..n], ok) && ok(Run(v, ms[..n]), ms[n])
  {
    var n := |ms| - 1;
    assert forall i | 0 <= i < n :: ms[..n][..i] == ms[..i] && ms[..n][i] == ms[i];
  }

  /** What every permitted step keeps holds after every run of permitted steps. */
  lemma {:induction false} RunInvariant(
      v: Vehicle, ms: seq<Moment>, inv: Vehicle -> bool, ok: (Vehicle, Moment) -> bool)
    requires inv(v) && Preserved(inv, ok) && Throughout(v, ms, ok)
    ensures inv(Run(v, ms))
  {
    if ms == [] {
    } else {
      var n := |ms| - 1;
      ThroughoutFront(v, ms, ok);
      RunInvariant(v, ms[..n], inv, ok);
      OneMoreStep(Run(v, ms[..n]), ms[n], inv, ok);
    }
  }

  /** Over every run: no unlock is lost or replayed twice, every hibernation confirmation is
      accounted for, and a hold timer's newest generation belongs to the live hold. */
  lemma {:induction false} RunKeepsBookkeeping(v: Vehicle, ms: seq<Moment>)
    requires Bookkeeping(v)
    ensures Bookkeeping(Run(v, ms))
  {
    forall w, m: Moment | Bookkeeping(w) ensures Bookkeeping(Step(w, m.s, m.io, m.next)) {
      StepKeepsBookkeeping(w, m.s, m.io, m.next);
    }
    RunInvariant(v, ms, w => Bookkeeping(w), (w, m) => true);
  }

  lemma {:induction false} RunReplays(v: Vehicle, ms: seq<Moment>)
    requires Bookkeeping(v)
    ensures var c := Run(v, ms).commit; |c.deferredIn| == |c.replays| + if c.pending then 1 else 0
  {
    RunKeepsBookkeeping(v, ms);
    Commitment.OneReplayPerVisit(Run(v, ms).commit, Run(v, ms).st);
  }

  ghost predicate Announced(v: Vehicle) { v.published == Shown(v.st) }

  lemma SendAnnounces(v: Vehicle, e: Event, io: Io, next: Io)
    requires Announced(v) && io.statePublished && next.statePublished
    ensures Announced(Send(v, e, io, next))
  {
    assert Announced(Fire(v, e, io));
  }

  lemma RailAnnounces(v: Vehicle, d: RailRequest, io: Io, next: Io)
    requires Announced(v) && io.statePublished && next.statePublished
    ensures Announced(OnRail(v, d, io, next))
  {
    hide Send;
    if d == CompleteDbc { SendAnnounces(v.(hold := DashboardHold.CompleteDbc(v.hold)), DbcUpdateComplete, io, next); }
  }

  lemma StepAnnounces(v: Vehicle, s: Stimulus, io: Io, next: Io)
    requires Announced(v) && io.statePublished && next.statePublished
    ensures Announced(Step(v, s, io, next))
  {
    hide Send;
    match s
    case Deliver(e) => SendAnnounces(v, e, io, next);
    case UnlockRequest => SendAnnounces(v, Unlock, io, next);
    case CountdownFires => SendAnnounces(v.(idle := v.idle.(deadline := None)), AutoStandbyTimeout, io, next);
    case Input(r) => ReadingFrame(v, r, io);
    case Rail(d) => RailAnnounces(v, d, io, next);
  }

  /** While publications succeed, what is published is the state under its published name. */
  lemma {:induction false} RunAnnounces(v: Vehicle, ms: seq<Moment>)
    requires Announced(v) && forall i | 0 <= i < |ms| :: ms[i].io.statePublished && ms[i].next.statePublished
    ensures Announced(Run(v, ms))
  {
    forall w, m: Moment | Announced(w) && m.io.statePublished && m.next.statePublished
      ensures Announced(Step(w, m.s, m.io, m.next))
    {
      StepAnnounces(w, m.s, m.io, m.next);
    }
    RunInvariant(v, ms, w => Announced(w), (w, m: Moment) => m.io.statePublished && m.next.statePublished);
  }
}
