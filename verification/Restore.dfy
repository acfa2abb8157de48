/** Resuming a saved state after a restart. A marker names the state being restored until
    the attempt has ended, so that a state which kills the process is tried only once. */
module Restore {
  import opened Definition

  /** A saved state as it is stored: a published name, a name that is accepted but never
      published, or anything else. */
  datatype Saved = Nothing | Name(s: SystemState) | WaitingHibernationAdvanced | Other(text: string)

  predicate Restorable(s: Saved) {
    match s
    case Name(n) => n != ShownShuttingDown && n != ShownUpdating
    case WaitingHibernationAdvanced => true
    case _ => false
  }

  /** The machine state a name stands for; waiting for hibernation starts over. */
  function StateOf(s: Saved): Option<State> {
    match s
    case Name(ShownStandby) => Some(Standby)
    case Name(ShownParked) => Some(Parked)
    case Name(ShownReadyToDrive) => Some(ReadyToDrive)
    case Name(ShownWaitingSeatbox) => Some(WaitingSeatbox)
    case Name(ShownShuttingDown) => Some(ShuttingDown)
    case Name(ShownUpdating) => Some(Updating)
    case Name(ShownWaitingHibernation) => Some(InitialHold)
    case Name(ShownHibernationSeatbox) => Some(HibernationSeatbox)
    case Name(ShownHibernationConfirm) => Some(HibernationConfirm)
    case Name(ShownHopOn) => Some(HopOn)
    case Name(ShownHopOnLearning) => Some(HopOnLearning)
    case WaitingHibernationAdvanced => Some(AwaitingConfirm)
    case _ => None
  }

  /** A drive is resumed only while its supply is there. */
  function Target(s: Saved, supplied: bool): State
    requires Restorable(s)
  {
    if s == Name(ShownReadyToDrive) && !supplied then Parked else StateOf(s).value
  }

  datatype Verdict = Skip | Decline | Refuse | Attempt

  /** `read` is the marker, or None if it is absent or cannot be read. */
  function Judge(s: Saved, read: Option<Saved>): Verdict {
    if s == Nothing || s == Name(ShownShuttingDown) then Skip
    else if s == Name(ShownUpdating) || !Restorable(s) then Decline
    else if read == Some(s) then Refuse
    else Attempt
  }

  /** How the marker store behaves during one boot. `expired`: the marker ran out before. */
  datatype Store = Store(expired: bool, readOk: bool, setOk: bool, clearOk: bool)
  {
    predicate Healthy() { !expired && readOk && setOk && clearOk }
  }

  /** Where the process dies, if it does: before it has marked its attempt or cleared a
      refusal, or once the attempt is under way and before it is cleared. */
  datatype Crash = Survives | DiesEarly | DiesRestoring

  datatype Boot = Boot(saved: Saved, store: Store, crash: Crash)

  datatype Outcome = Idle | Died | Refused | Interrupted | Concluded

  datatype Record = Record(saved: Saved, outcome: Outcome)

  function Found(marker: Option<Saved>, b: Boot): Option<Saved> { if b.store.expired then None else marker }

  /** What a boot reads of the marker it finds. */
  function ReadOf(marker: Option<Saved>, b: Boot): Option<Saved> { if b.store.readOk then Found(marker, b) else None }

  function Marked(marker: Option<Saved>, b: Boot): Option<Saved> {
    if b.store.setOk then Some(b.saved) else Found(marker, b)
  }

  function Cleared(marker: Option<Saved>, b: Boot): Option<Saved> { if b.store.clearOk then None else marker }

  function JudgeBoot(marker: Option<Saved>, b: Boot): Verdict {
    Judge(b.saved, ReadOf(marker, b))
  }

  function OutcomeOf(marker: Option<Saved>, b: Boot): Outcome {
    if b.crash == DiesEarly then Died
    else match JudgeBoot(marker, b)
      case Skip => Idle
      case Decline => Idle
      case Refuse => if b.crash == Survives then Refused else Died
      case Attempt => if b.crash == Survives then Concluded else Interrupted
  }

  function MarkerAfter(marker: Option<Saved>, b: Boot): Option<Saved> {
    match OutcomeOf(marker, b)
    case Idle => Found(marker, b)
    case Died => Found(marker, b)
    case Refused => Cleared(Found(marker, b), b)
    case Interrupted => Marked(marker, b)
    case Concluded => Cleared(Marked(marker, b), b)
  }

  function Marker(bs: seq<Boot>): Option<Saved> {
    if bs == [] then None else MarkerAfter(Marker(bs[..|bs| - 1]), bs[|bs| - 1])
  }

  /** What the i-th boot of a sequence did. */
  function Did(bs: seq<Boot>, i: nat): Record
    requires i < |bs|
  {
    Record(bs[i].saved, OutcomeOf(Marker(bs[..i]), bs[i]))
  }

  /** Boots that came to no verdict on any attempt. */
  predicate Mute(o: Outcome) { o == Idle || o == Died }

  /** The attempt at `s` in boot `i` was cut short and no later boot has answered it. */
  ghost predicate Unanswered(bs: seq<Boot>, i: nat, s: Saved) {
    i < |bs| && Did(bs, i) == Record(s, Interrupted) && forall k | i < k < |bs| :: Mute(Did(bs, k).outcome)
  }

  ghost predicate Healthy(bs: seq<Boot>) { forall b | b in bs :: b.store.Healthy() }

  lemma {:induction false} DidSnoc(bs: seq<Boot>, b: Boot, i: nat)
    requires i <= |bs|
    ensures Did(bs + [b], i) == if i < |bs| then Did(bs, i) else Record(b.saved, OutcomeOf(Marker(bs), b))
    ensures Marker(bs + [b]) == MarkerAfter(Marker(bs), b)
  {
    assert (bs + [b])[..|bs|] == bs;
    assert i < |bs| ==> (bs + [b])[..i] == bs[..i];
    assert bs[..|bs|] == bs;
  }

  /** The marker names a state exactly when the last attempt that is still unanswered was at it. */
  lemma {:induction false} MarkerNamesUnanswered(bs: seq<Boot>)
    requires Healthy(bs)
    ensures forall i: nat, s | Unanswered(bs, i, s) :: Marker(bs) == Some(s)
    ensures Marker(bs).Some? ==> exists i: nat :: Unanswered(bs, i, Marker(bs).value)
  {
    if bs == [] {
    } else {
      var front, b := bs[..|bs| - 1], bs[|bs| - 1];
      assert bs == front + [b];
      assert b in bs && forall c | c in front :: c in bs;
      MarkerNamesUnanswered(front);
      forall i: nat | i < |bs|
        ensures Did(bs, i) == if i < |front| then Did(front, i) else Record(b.saved, OutcomeOf(Marker(front), b))
      {
        DidSnoc(front, b, i);
      }
      DidSnoc(front, b, 0);
      forall i: nat, s | Unanswered(bs, i, s) ensures Marker(bs) == Some(s) {
        if i < |front| {
          assert Mute(Did(bs, |front|).outcome);
          assert Unanswered(front, i, s) by {
            forall k: nat | i < k < |front| ensures Mute(Did(front, k).outcome) { assert Did(bs, k) == Did(front, k); }
          }
        }
      }
      if Marker(bs).Some? {
        var s := Marker(bs).value;
        if OutcomeOf(Marker(front), b) == Interrupted {
          assert Unanswered(bs, |front|, s);
        } else {
          var i: nat :| Unanswered(front, i, s);
          assert Unanswered(bs, i, s);
        }
      }
    }
  }

  lemma HealthyPrefix(bs: seq<Boot>, i: nat)
    requires Healthy(bs) && i <= |bs|
    ensures Healthy(bs[..i])
  {
  }

  /** A refusal blames the right state: the last attempt that any boot answered or cut short
      was at this very state, and was cut short. */
  lemma RefusalBlamesInterruption(bs: seq<Boot>, j: nat)
    requires Healthy(bs) && j < |bs| && Did(bs, j).outcome == Refused
    ensures exists i: nat :: Unanswered(bs[..j], i, bs[j].saved)
  {
    HealthyPrefix(bs, j);
    MarkerNamesUnanswered(bs[..j]);
    assert bs[j] in bs;
  }

  lemma UnansweredIsNotRepeated(bs: seq<Boot>, i: nat, j: nat)
    requires Healthy(bs) && i < j < |bs| && Did(bs, i) == Record(bs[j].saved, Interrupted)
    requires forall k | i < k < j :: Mute(Did(bs, k).outcome)
    ensures Did(bs, j).outcome != Interrupted
  {
    var front := bs[..j];
    HealthyPrefix(bs, j);
    forall k: nat | k < j ensures Did(front, k) == Did(bs, k) { assert front[..k] == bs[..k]; }
    assert Unanswered(front, i, bs[j].saved);
    MarkerNamesUnanswered(front);
    assert bs[j] in bs;
  }

  /** No state is tried twice in a row: between two attempts cut short at the same state some
      boot refused it, finished an attempt, or was cut short at another state. */
  lemma NoRepeatedInterruption(bs: seq<Boot>, i: nat, j: nat)
    requires Healthy(bs) && i < j < |bs|
    requires Did(bs, i) == Did(bs, j) == Record(bs[j].saved, Interrupted)
    ensures exists k :: i < k < j && !Mute(Did(bs, k).outcome)
  {
    if forall k | i < k < j :: Mute(Did(bs, k).outcome) { UnansweredIsNotRepeated(bs, i, j); }
  }

  /** With a faulty store: an attempt right after one cut short at the same state repeats it
      exactly when the marker ran out, cannot be read, or was neither set nor there before. */
  lemma RepeatsExactly(marker: Option<Saved>, a: Boot, b: Boot)
    requires OutcomeOf(marker, a) == Interrupted && b.saved == a.saved && b.crash == DiesRestoring
    ensures OutcomeOf(MarkerAfter(marker, a), b) == Interrupted
      <==> b.store.expired || !b.store.readOk || (!a.store.setOk && Found(marker, a) != Some(a.saved))
  {
  }

  /** A finished attempt is refused by the next boot exactly when its marker could not be
      cleared and is still standing. */
  lemma RefusedAfterSuccessExactly(marker: Option<Saved>, a: Boot, b: Boot)
    requires OutcomeOf(marker, a) == Concluded && b.saved == a.saved && b.crash == Survives
    ensures OutcomeOf(MarkerAfter(marker, a), b) == Refused
      <==> !b.store.expired && b.store.readOk && !a.store.clearOk
           && (a.store.setOk || Found(marker, a) == Some(a.saved))
  {
  }

  /** Nothing resumes into updating, a parent state or an unknown one. */
  lemma AttemptsAreKnown(s: Saved, read: Option<Saved>, supplied: bool)
    ensures Judge(s, read) == Attempt ==>
      Restorable(s) && Leaf(Target(s, supplied))
      && Target(s, supplied) != Updating && Target(s, supplied) != ShuttingDown
    ensures Judge(s, read) == Attempt && Target(s, supplied) == ReadyToDrive ==> supplied
  {
  }

  /** Publishing a state and resuming it is the identity, but for the two states published
      under another one's name, shutting down and updating, and a drive without supply. */
  lemma ResumesWhereItWas(st: State, supplied: bool)
    requires Leaf(st)
    ensures Restorable(Name(Shown(st))) <==> st != ShuttingDown && st != Updating
    ensures Restorable(Name(Shown(st))) ==>
      (Target(Name(Shown(st)), supplied) == st <==>
        st != InitialHold && st != AwaitingConfirm && (st == ReadyToDrive ==> supplied))
  {
  }

  lemma SurvivorsMarker(marker: Option<Saved>, b: Boot)
    requires Restorable(b.saved) && b.crash == Survives
    ensures var found, read := Found(marker, b), ReadOf(marker, b);
      && Judge(b.saved, read) == (if read == Some(b.saved) then Refuse else Attempt)
      && MarkerAfter(marker, b) ==
           if b.store.clearOk then None
           else if read == Some(b.saved) then found else if b.store.setOk then Some(b.saved) else found
  {
  }

  /** The store that survives the process. */
  class MarkerStore {
    var attempt: Option<Saved>

    constructor ()
      ensures attempt == None
    {
      attempt := None;
    }

    /** A marker runs out by itself, unseen by any boot. */
    method Lapse(expired: bool)
      modifies this
      ensures attempt == if expired then None else old(attempt)
    {
      if expired { attempt := None; }
    }

    method Get(ok: bool) returns (read: Option<Saved>)
      ensures read == if ok then attempt else None
    {
      read := if ok then attempt else None;
    }

    method Set(s: Saved, ok: bool)
      modifies this
      ensures attempt == if ok then Some(s) else old(attempt)
    {
      if ok { attempt := Some(s); }
    }

    method Clear(ok: bool)
      modifies this
      ensures attempt == if ok then None else old(attempt)
    {
      if ok { attempt := None; }
    }
  }
}
