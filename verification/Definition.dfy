/** The vehicle state machine as data: states, hierarchy, guarded transition rows,
    dropped events and timeouts, and the way a row is picked for an event.
    Rows of a state come in declaration order; a state is searched before its parent. */
module Definition {
  datatype Option<+T> = None | Some(value: T)

  datatype State =
    | Standby | AtRest | Parked | ReadyToDrive | WaitingSeatbox | Updating | ShuttingDown
    | Hibernation | InitialHold | AwaitingConfirm | HibernationSeatbox | HibernationConfirm
    | HopOn | HopOnLearning

  datatype Event =
    | Unlock | Lock | LockHibernate | ForceLock | DriveSupplyReady
    | DashboardReady | DashboardNotReady | KeycardAuth
    | UpdateStart | UpdateComplete | DbcUpdateComplete
    | KickstandDown | KickstandUp | BrakesPressed | BrakesReleased | SeatboxButton
    | ShutdownTimeout | AutoStandbyTimeout | WaitingSeatboxTimeout
    | HibernationInitialTimeout | HibernationConfirmTimeout
    | HibernationForceTimeout | HibernationFinalTimeout
    | SeatboxClosed | HopOnEngage | HopOnLearningEngage | HopOnRelease

  /** The published names; several machine states share one. */
  datatype SystemState =
    | ShownStandby | ShownParked | ShownReadyToDrive | ShownWaitingSeatbox | ShownShuttingDown
    | ShownUpdating | ShownWaitingHibernation | ShownHibernationSeatbox
    | ShownHibernationConfirm | ShownHopOn | ShownHopOnLearning

  function Shown(s: State): SystemState {
    match s
    case Standby => ShownStandby
    case Parked => ShownParked
    case ReadyToDrive => ShownReadyToDrive
    case WaitingSeatbox => ShownWaitingSeatbox
    case ShuttingDown => ShownShuttingDown
    case Updating => ShownUpdating
    case InitialHold => ShownParked
    case Hibernation => ShownWaitingHibernation
    case AwaitingConfirm => ShownWaitingHibernation
    case HibernationSeatbox => ShownHibernationSeatbox
    case HibernationConfirm => ShownHibernationConfirm
    case HopOn => ShownHopOn
    case HopOnLearning => ShownHopOnLearning
    case AtRest => ShownParked
  }

  function Parent(s: State): Option<State> {
    match s
    case Parked => Some(AtRest)
    case HopOn => Some(AtRest)
    case HopOnLearning => Some(AtRest)
    case InitialHold => Some(Hibernation)
    case AwaitingConfirm => Some(Hibernation)
    case HibernationSeatbox => Some(Hibernation)
    case HibernationConfirm => Some(Hibernation)
    case _ => None
  }

  predicate Leaf(s: State) { s != AtRest && s != Hibernation }

  predicate InFamily(s: State, family: State) { s == family || Parent(s) == Some(family) }

  datatype Guard =
    | CanEnterReadyToDrive | HasDriveSupply | IsKickstandUp | IsKickstandDown | IsSeatboxClosed
    | AreBrakesPressed | CanAbortShutdown | IsBrakeHibernationEnabled | IsHibernatePreparationCurrent

  /** What every guard answers while one event is dispatched. */
  datatype Guards = Guards(
    canEnterReadyToDrive: bool, hasDriveSupply: bool, kickstandUp: bool, kickstandDown: bool,
    seatboxClosed: bool, brakesPressed: bool, canAbortShutdown: bool,
    brakeHibernation: bool, preparationCurrent: bool)
  {
    predicate Holds(g: Guard) {
      match g
      case CanEnterReadyToDrive => canEnterReadyToDrive
      case HasDriveSupply => hasDriveSupply
      case IsKickstandUp => kickstandUp
      case IsKickstandDown => kickstandDown
      case IsSeatboxClosed => seatboxClosed
      case AreBrakesPressed => brakesPressed
      case CanAbortShutdown => canAbortShutdown
      case IsBrakeHibernationEnabled => brakeHibernation
      case IsHibernatePreparationCurrent => preparationCurrent
    }
  }

  datatype Action = NoAction | OnUnlock | OnForceLock | OnLockHibernate | OnSeatboxButton | OnHibernationComplete

  datatype Row = Row(guards: set<Guard>, target: State, action: Action)

  function Goto(target: State): Row { Row({}, target, NoAction) }

  function Rows(s: State, e: Event): seq<Row> {
    match s
    case Standby => (
      match e
      case Unlock => [Row({}, Parked, OnUnlock)]
      case KeycardAuth => [Row({}, Parked, OnUnlock)]
      case DbcUpdateComplete => [Goto(ShuttingDown)]
      case _ => [])
    case AtRest => (
      match e
      case Lock => [Row({IsSeatboxClosed}, ShuttingDown, NoAction), Goto(WaitingSeatbox)]
      case ForceLock => [Row({}, ShuttingDown, OnForceLock)]
      case KeycardAuth =>
        [Row({IsKickstandDown, IsSeatboxClosed}, ShuttingDown, NoAction),
         Row({IsKickstandDown}, WaitingSeatbox, NoAction)]
      case AutoStandbyTimeout => [Goto(ShuttingDown)]
      case _ => [])
    case Parked => (
      match e
      case Unlock => [Row({CanEnterReadyToDrive}, ReadyToDrive, OnUnlock)]
      case KickstandUp => [Row({CanEnterReadyToDrive}, ReadyToDrive, NoAction)]
      case DashboardReady => [Row({CanEnterReadyToDrive}, ReadyToDrive, NoAction)]
      case DriveSupplyReady => [Row({CanEnterReadyToDrive}, ReadyToDrive, NoAction)]
      case LockHibernate => [Row({IsHibernatePreparationCurrent}, ShuttingDown, OnLockHibernate)]
      case SeatboxButton =>
        [Row({IsKickstandUp, AreBrakesPressed, HasDriveSupply}, ReadyToDrive, NoAction),
         Row({IsKickstandDown}, Parked, OnSeatboxButton)]
      case BrakesPressed => [Row({IsBrakeHibernationEnabled, AreBrakesPressed}, InitialHold, NoAction)]
      case HopOnEngage => [Goto(HopOn)]
      case HopOnLearningEngage => [Goto(HopOnLearning)]
      case _ => [])
    case HopOn => (
      match e
      case HopOnRelease => [Row({}, Parked, OnUnlock)]
      case Unlock => [Row({}, Parked, OnUnlock)]
      case KeycardAuth => [Row({}, Parked, OnUnlock)]
      case _ => [])
    case HopOnLearning => (
      match e
      case HopOnRelease => [Row({}, Parked, OnUnlock)]
      case Unlock => [Row({}, Parked, OnUnlock)]
      case _ => [])
    case ReadyToDrive => (
      match e
      case KickstandDown => [Goto(Parked)]
      case DashboardNotReady => [Goto(Parked)]
      case ForceLock => [Row({}, ShuttingDown, OnForceLock)]
      case _ => [])
    case ShuttingDown => (
      match e
      case ShutdownTimeout => [Goto(Standby)]
      case Unlock => [Row({CanAbortShutdown}, Parked, OnUnlock)]
      case _ => [])
    case WaitingSeatbox => (
      match e
      case WaitingSeatboxTimeout => [Goto(ShuttingDown)]
      case SeatboxClosed => [Goto(ShuttingDown)]
      case KeycardAuth => [Goto(ShuttingDown)]
      case Lock => [Goto(ShuttingDown)]
      case Unlock => [Row({}, Parked, OnUnlock)]
      case ForceLock => [Row({}, ShuttingDown, OnForceLock)]
      case _ => [])
    case InitialHold => (
      match e
      case SeatboxButton => [Row({IsKickstandUp, AreBrakesPressed, HasDriveSupply}, ReadyToDrive, NoAction)]
      case HibernationInitialTimeout => [Goto(AwaitingConfirm)]
      case BrakesReleased => [Goto(Parked)]
      case _ => [])
    case AwaitingConfirm => (
      match e
      case KeycardAuth => [Row({IsSeatboxClosed}, HibernationConfirm, NoAction), Goto(HibernationSeatbox)]
      case SeatboxButton => [Goto(Parked)]
      case HibernationForceTimeout => [Row({AreBrakesPressed}, HibernationConfirm, NoAction)]
      case HibernationConfirmTimeout => [Goto(Parked)]
      case _ => [])
    case HibernationSeatbox => (
      match e
      case SeatboxClosed => [Goto(HibernationConfirm)]
      case SeatboxButton => [Goto(Parked)]
      case _ => [])
    case HibernationConfirm => (
      match e
      case HibernationFinalTimeout => [Row({}, ShuttingDown, OnHibernationComplete)]
      case SeatboxButton => [Goto(Parked)]
      case _ => [])
    case Hibernation => (
      match e
      case Unlock => [Row({}, Parked, OnUnlock)]
      case KickstandUp => [Row({CanEnterReadyToDrive}, ReadyToDrive, NoAction), Goto(Parked)]
      case _ => [])
    case Updating => []
  }

  /** Events the locked and learning modes drop before any row is looked up. */
  predicate Blocked(s: State, e: Event) {
    (s == HopOn || s == HopOnLearning) &&
    (e == KickstandUp || e == KickstandDown || e == BrakesPressed || e == BrakesReleased ||
     e == SeatboxButton || e == SeatboxClosed || e == DashboardReady || e == DashboardNotReady)
  }

  predicate Admits(row: Row, g: Guards) { forall x | x in row.guards :: g.Holds(x) }

  function FirstAdmitted(rows: seq<Row>, g: Guards): Option<Row> {
    if rows == [] then None
    else if Admits(rows[0], g) then Some(rows[0])
    else FirstAdmitted(rows[1..], g)
  }

  /** Own rows first, then the parent's, in declaration order. */
  function Candidates(s: State, e: Event): seq<Row> {
    if Blocked(s, e) then []
    else match Parent(s)
      case None => Rows(s, e)
      case Some(p) => Rows(s, e) + Rows(p, e)
  }

  function Dispatch(s: State, e: Event, g: Guards): Option<Row> {
    FirstAdmitted(Candidates(s, e), g)
  }

  /** Least-common-ancestor rule: a parent is left or entered only when the
      other end of the transition is outside its family. */
  predicate Exits(parent: State, source: State, target: State) {
    Parent(source) == Some(parent) && !InFamily(target, parent)
  }

  predicate Enters(parent: State, source: State, target: State) {
    Parent(target) == Some(parent) && !InFamily(source, parent)
  }

  const SECOND := 1000

  const SHUTDOWN_TIMEOUT := 5 * SECOND

  const WAITING_SEATBOX_TIMEOUT := 30 * SECOND

  const HIBERNATION_INITIAL_TIMEOUT := 15 * SECOND

  const HIBERNATION_CONFIRM_TIMEOUT := 30 * SECOND

  const HIBERNATION_FORCE_TIMEOUT := 15 * SECOND

  const HIBERNATION_FINAL_TIMEOUT := 3 * SECOND

  /** The timeout a state carries, in milliseconds, and the event it raises. */
  function Timeout(s: State): Option<(nat, Event)> {
    match s
    case WaitingSeatbox => Some((WAITING_SEATBOX_TIMEOUT, WaitingSeatboxTimeout))
    case ShuttingDown => Some((SHUTDOWN_TIMEOUT, ShutdownTimeout))
    case InitialHold => Some((HIBERNATION_INITIAL_TIMEOUT, HibernationInitialTimeout))
    case AwaitingConfirm => Some((HIBERNATION_CONFIRM_TIMEOUT, HibernationConfirmTimeout))
    case HibernationConfirm => Some((HIBERNATION_FINAL_TIMEOUT, HibernationFinalTimeout))
    case _ => None
  }

  lemma {:induction false} FirstAdmittedIsFirst(rows: seq<Row>, g: Guards)
    ensures FirstAdmitted(rows, g) == None <==> forall i | 0 <= i < |rows| :: !Admits(rows[i], g)
    ensures FirstAdmitted(rows, g).Some? ==>
      exists i :: 0 <= i < |rows| && rows[i] == FirstAdmitted(rows, g).value && Admits(rows[i], g)
                  && forall j | 0 <= j < i :: !Admits(rows[j], g)
  {
    if rows == [] || Admits(rows[0], g) {
    } else {
      FirstAdmittedIsFirst(rows[1..], g);
      assert forall i | 0 < i < |rows| :: rows[i] == rows[1..][i - 1];
      if FirstAdmitted(rows[1..], g).Some? {
        var i :| 0 <= i < |rows| - 1 && rows[1..][i] == FirstAdmitted(rows[1..], g).value
                 && Admits(rows[1..][i], g) && forall j | 0 <= j < i :: !Admits(rows[1..][j], g);
        assert rows[i + 1] == FirstAdmitted(rows, g).value;
        assert forall j | 0 <= j < i + 1 :: !Admits(rows[j], g);
      }
    }
  }

  /** Raised stand and supply always; readiness and an open steering lock too, unless the
      seatbox button was pressed with both brakes held. */
  ghost predicate DriveDemands(e: Event, row: Row) {
    CanEnterReadyToDrive in row.guards
    || (e == SeatboxButton && IsKickstandUp in row.guards
        && AreBrakesPressed in row.guards && HasDriveSupply in row.guards)
  }

  /** A map of the machine: for every source, the targets, with the action on the way and
      what the guards demand. */
  ghost predicate Leads(s: State, e: Event, row: Row) {
    var t, plain := row.target, row.action == NoAction;
    match s
    case Standby => (t == Parked && row.action == OnUnlock) || (t == ShuttingDown && plain && e == DbcUpdateComplete)
    case ShuttingDown =>
      (t == Standby && plain && e == ShutdownTimeout)
      || (t == Parked && row.action == OnUnlock && CanAbortShutdown in row.guards)
    case AtRest => (t == ShuttingDown || t == WaitingSeatbox) && (plain || row.action == OnForceLock)
    case Parked =>
      (t == ReadyToDrive && DriveDemands(e, row) && (plain || row.action == OnUnlock))
      || (t == ShuttingDown && row.action == OnLockHibernate)
      || (t == Parked && row.action == OnSeatboxButton)
      || ((t == InitialHold || t == HopOn || t == HopOnLearning) && plain)
    case HopOn => t == Parked && row.action == OnUnlock
    case HopOnLearning => t == Parked && row.action == OnUnlock
    case ReadyToDrive => (t == Parked && plain) || (t == ShuttingDown && row.action == OnForceLock)
    case WaitingSeatbox =>
      (t == Parked && row.action == OnUnlock) || (t == ShuttingDown && (plain || row.action == OnForceLock))
    case InitialHold => plain && ((t == ReadyToDrive && DriveDemands(e, row)) || t == AwaitingConfirm || t == Parked)
    case AwaitingConfirm => plain && (t == HibernationConfirm || t == HibernationSeatbox || t == Parked)
    case HibernationSeatbox => plain && (t == HibernationConfirm || t == Parked)
    case HibernationConfirm => (t == Parked && plain) || (t == ShuttingDown && row.action == OnHibernationComplete)
    case Hibernation =>
      (t == Parked && (plain || row.action == OnUnlock)) || (t == ReadyToDrive && plain && DriveDemands(e, row))
    case Updating => false
  }

  ghost predicate Route(s: State, e: Event, row: Row) {
    Leads(s, e, row) || (Parent(s).Some? && Leads(Parent(s).value, e, row))
  }

  ghost predicate Edge(s: State, e: Event, g: Guards, row: Row) {
    !Blocked(s, e) && Admits(row, g) && Route(s, e, row)
  }

  lemma ParkedRowsLead(e: Event, row: Row)
    requires row in Rows(Parked, e)
    ensures Leads(Parked, e, row)
  {
  }

  lemma AwakeRowsLead(s: State, e: Event, row: Row)
    requires row in Rows(s, e) && s != Parked && !InFamily(s, Hibernation)
    ensures Leads(s, e, row)
  {
    assert row == Rows(s, e)[0] || row == Rows(s, e)[1];
  }

  lemma HibernationRowsLead(s: State, e: Event, row: Row)
    requires row in Rows(s, e) && InFamily(s, Hibernation)
    ensures Leads(s, e, row)
  {
    assert row == Rows(s, e)[0] || row == Rows(s, e)[1];
  }

  lemma RowsLead(s: State, e: Event, row: Row)
    requires row in Rows(s, e)
    ensures Leads(s, e, row)
  {
    hide Rows, Leads;
    if s == Parked { ParkedRowsLead(e, row); }
    else if InFamily(s, Hibernation) { HibernationRowsLead(s, e, row); }
    else { AwakeRowsLead(s, e, row); }
  }

  /** Whatever is dispatched follows the map. */
  lemma DispatchFollowsMap(s: State, e: Event, g: Guards)
    ensures Dispatch(s, e, g).Some? ==> Edge(s, e, g, Dispatch(s, e, g).value)
  {
    FirstAdmittedIsFirst(Candidates(s, e), g);
    if Dispatch(s, e, g).Some? {
      var row := Dispatch(s, e, g).value;
      assert row in Candidates(s, e);
      if row in Rows(s, e) { RowsLead(s, e, row); } else { RowsLead(Parent(s).value, e, row); }
    }
  }

  /** The consequences of the map that the invariants rest on: where a state can go ... */
  ghost predicate LegalTarget(s: State, t: State) {
    && Leaf(t) && t != Updating
    && (s == t ==> t == Parked)
    && (t == Standby ==> s == ShuttingDown)
    && (s == ShuttingDown ==> t == Standby || t == Parked)
    && (s == Standby ==> t == ShuttingDown || t == Parked)
    && (s == ReadyToDrive ==> t == Parked || t == ShuttingDown)
    && (t == InitialHold || t == HopOn || t == HopOnLearning ==> s == Parked)
  }

  /** ... and what happens on the way. */
  ghost predicate LegalAction(s: State, row: Row) {
    var t, a := row.target, row.action;
    && (t == Standby ==> a == NoAction)
    && (s == ShuttingDown && t == Parked ==> a == OnUnlock)
    && (s == Standby && t == Parked ==> a == OnUnlock)
    && (a == OnHibernationComplete ==> s == HibernationConfirm && t == ShuttingDown)
    && (a == OnLockHibernate ==> s == Parked && t == ShuttingDown)
  }

  ghost predicate Legal(s: State, g: Guards, row: Row) {
    LegalTarget(s, row.target) && LegalAction(s, row)
    && (s == ShuttingDown && row.target == Parked ==> g.canAbortShutdown)
  }

  lemma OwnRows(s: State, e: Event, row: Row)
    requires Leaf(s) && Leads(s, e, row)
    ensures LegalTarget(s, row.target) && LegalAction(s, row)
  {
  }

  lemma InheritedRows(s: State, e: Event, row: Row)
    requires Leaf(s) && Parent(s).Some? && Leads(Parent(s).value, e, row)
    ensures LegalTarget(s, row.target) && LegalAction(s, row)
  {
  }

  lemma RoutesAreLegal(s: State, e: Event, row: Row)
    requires Leaf(s) && Route(s, e, row)
    ensures LegalTarget(s, row.target) && LegalAction(s, row)
  {
    hide Leads, LegalTarget, LegalAction;
    if Leads(s, e, row) { OwnRows(s, e, row); } else { InheritedRows(s, e, row); }
  }

  lemma AbortNeedsPermission(e: Event, g: Guards, row: Row)
    requires Edge(ShuttingDown, e, g, row) && row.target == Parked
    ensures g.canAbortShutdown
  {
    assert g.Holds(CanAbortShutdown);
  }

  lemma DispatchIsLegal(s: State, e: Event, g: Guards)
    requires Leaf(s)
    ensures Dispatch(s, e, g).Some? ==> Legal(s, g, Dispatch(s, e, g).value)
  {
    DispatchFollowsMap(s, e, g);
    if Dispatch(s, e, g).Some? {
      RoutesAreLegal(s, e, Dispatch(s, e, g).value);
      if s == ShuttingDown && Dispatch(s, e, g).value.target == Parked {
        AbortNeedsPermission(e, g, Dispatch(s, e, g).value);
      }
    }
  }

  lemma DriveRoute(s: State, e: Event, row: Row)
    requires Route(s, e, row) && row.target == ReadyToDrive
    ensures DriveDemands(e, row)
  {
    hide DriveDemands;
  }

  lemma DriveEdge(s: State, e: Event, g: Guards, row: Row)
    requires Edge(s, e, g, row) && row.target == ReadyToDrive
    ensures g.canEnterReadyToDrive || (e == SeatboxButton && g.kickstandUp && g.brakesPressed && g.hasDriveSupply)
  {
    hide Route;
    DriveRoute(s, e, row);
    assert CanEnterReadyToDrive in row.guards ==> g.Holds(CanEnterReadyToDrive);
    assert IsKickstandUp in row.guards ==> g.Holds(IsKickstandUp);
    assert AreBrakesPressed in row.guards ==> g.Holds(AreBrakesPressed);
    assert HasDriveSupply in row.guards ==> g.Holds(HasDriveSupply);
  }

  /** What the events that the vehicle sends to itself lead to. */
  lemma DriveDrops(g: Guards)
    ensures Dispatch(ReadyToDrive, DashboardNotReady, g) == Some(Goto(Parked))
  {
    assert Candidates(ReadyToDrive, DashboardNotReady) == [Goto(Parked)];
  }

  lemma PassStarts(g: Guards)
    ensures Dispatch(Standby, DbcUpdateComplete, g) == Some(Goto(ShuttingDown))
  {
    assert Candidates(Standby, DbcUpdateComplete) == [Goto(ShuttingDown)];
  }

  lemma ShutdownEnds(g: Guards)
    ensures Dispatch(ShuttingDown, ShutdownTimeout, g) == Some(Goto(Standby))
  {
    assert Candidates(ShuttingDown, ShutdownTimeout) == [Goto(Standby)];
  }

  /** Moves inside the at-rest family neither leave nor re-enter its parent, and every move
      across the border does exactly one of the two. */
  lemma FamilyBorder(s: State, t: State)
    requires Leaf(s) && Leaf(t)
    ensures Exits(AtRest, s, t) <==> InFamily(s, AtRest) && !InFamily(t, AtRest)
    ensures Enters(AtRest, s, t) <==> !InFamily(s, AtRest) && InFamily(t, AtRest)
  {
  }
}
