/** The intent to hibernate after a shutdown, and what became of every confirmation a
    rider gave at the brake levers. */
module HibernationIntent {
  import opened Definition

  /** `confirmed` counts physical confirmations, the latest one carrying that number.
      `submitted` maps a submitted confirmation to the vehicle state published at that
      moment; `manualCommands` and `cancelCommands` count what was sent to the power manager. */
  datatype Intent = Intent(
    requested: bool, physical: bool, confirmed: nat,
    cancelled: set<nat>, submitted: map<nat, SystemState>,
    manualCommands: nat, cancelCommands: nat)
  {
    ghost predicate Pending(id: nat) { physical && id == confirmed }

    /** Every confirmation is exactly one of pending, cancelled and submitted, and each
        submitted one was sent once, with stand-by already published. */
    ghost predicate Accounted() {
      && (forall id: nat :: 1 <= id <= confirmed <==> (id in cancelled || id in submitted || Pending(id)))
      && cancelled !! submitted.Keys
      && (physical ==> confirmed !in cancelled && confirmed !in submitted)
      && manualCommands == |submitted|
      && (forall id | id in submitted :: submitted[id] == ShownStandby)
    }

    ghost predicate Valid(st: State) {
      && (physical ==> requested)
      && (requested ==> st == ShuttingDown || st == Standby)
      && Accounted()
    }
  }

  const NO_INTENT := Intent(false, false, 0, {}, map[], 0, 0)

  function Confirm(h: Intent): Intent { h.(requested := true, physical := true, confirmed := h.confirmed + 1) }

  function Prepare(h: Intent): Intent { h.(requested := true, physical := false) }

  function Cancel(h: Intent): Intent {
    h.(requested := false, physical := false,
       cancelled := if h.physical then h.cancelled + {h.confirmed} else h.cancelled,
       cancelCommands := if h.requested then h.cancelCommands + 1 else h.cancelCommands)
  }

  function Complete(h: Intent, published: SystemState): Intent {
    if !h.physical then h.(requested := false)
    else h.(requested := false, physical := false,
            submitted := h.submitted[h.confirmed := published], manualCommands := h.manualCommands + 1)
  }

  /** The transition actions. */
  function Act(h: Intent, a: Action): Intent {
    match a
    case OnUnlock => Cancel(h)
    case OnLockHibernate => Prepare(h)
    case OnHibernationComplete => Confirm(h)
    case _ => h
  }

  /** The state-change callback: a completed shutdown submits the rider's request, and only
      once stand-by is published. */
  function Changed(h: Intent, from: State, to: State, statePublished: bool): Intent {
    if statePublished && to == Standby && from == ShuttingDown then Complete(h, Shown(to)) else h
  }

  lemma ActKeeps(h: Intent, a: Action)
    requires h.Accounted() && (a == OnHibernationComplete || a == OnLockHibernate ==> !h.physical)
    ensures Act(h, a).Accounted()
  {
  }

  lemma ChangedKeeps(h: Intent, from: State, to: State, statePublished: bool)
    requires h.Accounted()
    ensures Changed(h, from, to, statePublished).Accounted()
  {
  }
}
