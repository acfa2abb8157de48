/** Presses and releases of one button turned into taps, double taps, long taps and holds.
    Times are milliseconds. */
module Gestures {
  import opened Definition
  import D = Debounce

  const LONG_TAP := 800

  const HOLD := 3000

  const DOUBLE_TAP := 800

  datatype Kind = Press | Release | Tap | DoubleTap | LongTap | Hold

  datatype Emitted = Emitted(kind: Kind, at: int)

  /** `longTapArmed` and `holdArmed`: the timer of the current press is still outstanding. */
  datatype Gesture = Gesture(
    pressed: bool, pressTime: int, longTapArmed: bool, holdArmed: bool, longTapFired: bool, holdFired: bool,
    lastTapAt: int, lastTapValid: bool, log: seq<Emitted>)

  const IDLE := Gesture(false, 0, false, false, false, false, 0, false, [])

  function Pressed(g: Gesture, now: int): Gesture {
    g.(pressed := true, pressTime := now, longTapFired := false, holdFired := false,
       longTapArmed := true, holdArmed := true, log := g.log + [Emitted(Press, now)])
  }

  /** A tap closes a pair when the previous one still counts and is recent enough. */
  function Tapped(g: Gesture, now: int): Gesture {
    var tapped := g.(log := g.log + [Emitted(Tap, now)]);
    if g.lastTapValid && now - g.lastTapAt <= DOUBLE_TAP
    then tapped.(lastTapValid := false, log := tapped.log + [Emitted(DoubleTap, now)])
    else tapped.(lastTapAt := now, lastTapValid := true)
  }

  function Released(g: Gesture, now: int): Gesture {
    var up := g.(pressed := false, longTapArmed := false, holdArmed := false);
    if !g.pressed then up
    else
      var released := up.(log := g.log + [Emitted(Release, now)]);
      if g.longTapFired || g.holdFired then released else Tapped(released, now)
  }

  function Changed(g: Gesture, pressed: bool, now: int): Gesture {
    if pressed then Pressed(g, now) else Released(g, now)
  }

  /** The callbacks ask only whether the button is pressed, not by which press. */
  function LongTapFires(g: Gesture, now: int): Gesture {
    if g.pressed then g.(longTapFired := true, lastTapValid := false, log := g.log + [Emitted(LongTap, now)]) else g
  }

  function HoldFires(g: Gesture, now: int): Gesture {
    if g.pressed then g.(holdFired := true, lastTapValid := false, log := g.log + [Emitted(Hold, now)]) else g
  }

  class GestureState {
    var pressed: bool
    var pressTime: int
    var longTapTimer: bool
    var holdTimer: bool
    var longTapFired: bool
    var holdFired: bool
    var lastTapAt: int
    var lastTapValid: bool
    var emitted: seq<Emitted>

    function Abs(): Gesture
      reads this
    {
      Gesture(pressed, pressTime, longTapTimer, holdTimer, longTapFired, holdFired, lastTapAt, lastTapValid, emitted)
    }

    constructor ()
      ensures Abs() == IDLE
    {
      pressed, pressTime, longTapTimer, holdTimer, longTapFired, holdFired := false, 0, false, false, false, false;
      lastTapAt, lastTapValid, emitted := 0, false, [];
    }

    method StopTimers()
      modifies this
      ensures Abs() == old(Abs()).(longTapArmed := false, holdArmed := false)
    {
      longTapTimer, holdTimer := false, false;
    }

    method OnChange(value: bool, now: int)
      modifies this
      ensures Abs() == Changed(old(Abs()), value, now)
    {
      if value {
        pressed, pressTime, longTapFired, holdFired := true, now, false, false;
        emitted := emitted + [Emitted(Press, now)];
        StopTimers();
        longTapTimer, holdTimer := true, true;
      } else {
        var wasPressed := pressed;
        pressed := false;
        StopTimers();
        if wasPressed {
          emitted := emitted + [Emitted(Release, now)];
          if !longTapFired && !holdFired {
            emitted := emitted + [Emitted(Tap, now)];
            if lastTapValid && now - lastTapAt <= DOUBLE_TAP {
              lastTapValid := false;
              emitted := emitted + [Emitted(DoubleTap, now)];
            } else {
              lastTapAt, lastTapValid := now, true;
            }
          }
        }
      }
    }

    method OnLongTapTimer(now: int)
      modifies this
      ensures Abs() == LongTapFires(old(Abs()), now)
    {
      var stillPressed := pressed;
      if stillPressed {
        longTapFired, lastTapValid := true, false;
        emitted := emitted + [Emitted(LongTap, now)];
      }
    }

    method OnHoldTimer(now: int)
      modifies this
      ensures Abs() == HoldFires(old(Abs()), now)
    {
      var stillPressed := pressed;
      if stillPressed {
        holdFired, lastTapValid := true, false;
        emitted := emitted + [Emitted(Hold, now)];
      }
    }
  }

  class GestureDetector {
    var inputs: map<string, GestureState>

    ghost predicate Valid()
      reads this
    {
      forall m, n | m in inputs && n in inputs && m != n :: inputs[m] != inputs[n]
    }

    ghost function StateOf(name: string): Gesture
      reads this, inputs.Values
    {
      if name in inputs then inputs[name].Abs() else IDLE
    }

    constructor ()
      ensures Valid() && inputs == map[]
    {
      inputs := map[];
    }

    /** One button's gestures never depend on another's. */
    method OnChange(name: string, pressed: bool, now: int)
      requires Valid()
      modifies this, inputs.Values
      ensures Valid() && fresh(inputs.Values - old(inputs.Values))
      ensures StateOf(name) == Changed(old(StateOf(name)), pressed, now)
      ensures forall n | n != name :: StateOf(n) == old(StateOf(n))
    {
      if name !in inputs {
        var created := new GestureState();
        inputs := inputs[name := created];
      }
      inputs[name].OnChange(pressed, now);
    }

    method Stop()
      requires Valid()
      modifies inputs.Values
      ensures forall n :: StateOf(n) == old(StateOf(n)).(longTapArmed := false, holdArmed := false)
    {
      var todo: set<string> := inputs.Keys;
      while todo != {}
        invariant todo <= inputs.Keys
        invariant forall n | n in todo :: StateOf(n) == old(StateOf(n))
        invariant forall n | n !in todo :: StateOf(n) == old(StateOf(n)).(longTapArmed := false, holdArmed := false)
        decreases todo
      {
        var n :| n in todo;
        todo := todo - {n};
        inputs[n].StopTimers();
      }
    }
  }

  /** A button with what is on its way to it: callbacks whose timer had already run out when
      their press was released, so that stopping the timer came too late. */
  datatype Button = Button(g: Gesture, lateLongTaps: nat, lateHolds: nat)

  const UNTOUCHED := Button(IDLE, 0, 0)

  /** One thing that happens to a button: its deduplicated input changes, a timer of the
      current press runs out, or a late callback arrives. The long-tap timer, due first, runs
      before the hold timer. */
  datatype Op = Input(pressed: bool) | LongTapTimer | HoldTimer | LateLongTap | LateHold

  predicate LongTapDue(g: Gesture, now: int) { g.longTapArmed && now - g.pressTime >= LONG_TAP }

  predicate HoldDue(g: Gesture, now: int) { g.holdArmed && now - g.pressTime >= HOLD }

  predicate Enabled(b: Button, op: Op, now: int) {
    match op
    case Input(pressed) => !(pressed && b.g.pressed)
    case LongTapTimer => LongTapDue(b.g, now)
    case HoldTimer => HoldDue(b.g, now) && !b.g.longTapArmed
    case LateLongTap => b.lateLongTaps > 0
    case LateHold => b.lateHolds > 0
  }

  function Do(b: Button, op: Op, now: int): Button
    requires Enabled(b, op, now)
  {
    match op
    case Input(pressed) =>
      Button(Changed(b.g, pressed, now),
             b.lateLongTaps + if LongTapDue(b.g, now) then 1 else 0,
             b.lateHolds + if HoldDue(b.g, now) then 1 else 0)
    case LongTapTimer => b.(g := LongTapFires(b.g, now).(longTapArmed := false))
    case HoldTimer => b.(g := HoldFires(b.g, now).(holdArmed := false))
    case LateLongTap => b.(g := LongTapFires(b.g, now), lateLongTaps := b.lateLongTaps - 1)
    case LateHold => b.(g := HoldFires(b.g, now), lateHolds := b.lateHolds - 1)
  }

  function Step(b: Button, op: Op, now: int): Button {
    if Enabled(b, op, now) then Do(b, op, now) else b
  }

  function Run(b: Button, ops: seq<(int, Op)>): Button {
    if ops == [] then b else var last := ops[|ops| - 1]; Step(Run(b, ops[..|ops| - 1]), last.1, last.0)
  }

  /** A late callback arrives while a later press is on. */
  predicate MeetsPress(b: Button, op: Op, now: int) {
    (op == LateLongTap || op == LateHold) && Enabled(b, op, now) && b.g.pressed
  }

  // What holds over every run, late callbacks included

  function Count(log: seq<Emitted>, k: Kind): nat {
    if log == [] then 0
    else Count(log[..|log| - 1], k) + if log[|log| - 1].kind == k then 1 else 0
  }

  predicate Is(log: seq<Emitted>, i: int, k: Kind) { 0 <= i < |log| && log[i].kind == k }

  /** Tap `i` closes a double tap exactly when the event before its press was a tap, no
      longer ago than the window. */
  predicate Paired(log: seq<Emitted>, i: int) {
    0 <= i < |log| && Is(log, i - 3, Tap) && log[i].at - log[i - 3].at <= DOUBLE_TAP
  }

  /** Every tap ends press, release, tap, and is followed by a double tap exactly when it
      pairs; a double tap follows nothing else. */
  ghost predicate Pairing(log: seq<Emitted>) {
    && (forall i | Is(log, i, Tap) ::
          Is(log, i - 1, Release) && Is(log, i - 2, Press) && (Is(log, i + 1, DoubleTap) <==> Paired(log, i)))
    && (forall i | Is(log, i, DoubleTap) :: Is(log, i - 1, Tap))
  }

  /** The fields describe the taps in the log: the last one counts while nothing but a press
      has followed it. */
  ghost predicate Tapping(g: Gesture) {
    var n := |g.log|;
    && Pairing(g.log)
    && (if g.longTapFired || g.holdFired then g.pressed ==> !g.lastTapValid
        else g.pressed ==> Is(g.log, n - 1, Press) && (g.lastTapValid <==> Is(g.log, n - 2, Tap)))
    && (!g.pressed ==> (g.lastTapValid <==> Is(g.log, n - 1, Tap)))
    && (g.lastTapValid ==> g.lastTapAt == g.log[if g.pressed then n - 2 else n - 1].at)
    && 2 * Count(g.log, DoubleTap) + (if g.lastTapValid then 1 else 0) <= Count(g.log, Tap)
  }

  lemma {:induction false} CountSnoc(log: seq<Emitted>, e: Emitted)
    ensures forall k :: Count(log + [e], k) == Count(log, k) + if e.kind == k then 1 else 0
  {
    assert (log + [e])[..|log|] == log;
  }

  lemma {:induction false} PairingSnoc(log: seq<Emitted>, e: Emitted)
    requires Pairing(log) && e.kind != Tap && e.kind != DoubleTap
    ensures Pairing(log + [e])
  {
    var t := log + [e];
    forall i | Is(t, i, Tap)
      ensures Is(t, i - 1, Release) && Is(t, i - 2, Press) && (Is(t, i + 1, DoubleTap) <==> Paired(t, i))
    {
      assert Is(log, i, Tap) && Paired(log, i) == Paired(t, i);
    }
    forall i | Is(t, i, DoubleTap) ensures Is(t, i - 1, Tap) { assert Is(log, i, DoubleTap); }
  }

  /** A new tap, followed by a double tap exactly when it pairs. */
  lemma {:induction false} PairingTap(log: seq<Emitted>, now: int)
    requires Pairing(log) && Is(log, |log| - 1, Release) && Is(log, |log| - 2, Press)
    ensures var tapped := log + [Emitted(Tap, now)];
      if Paired(tapped, |log|) then Pairing(tapped + [Emitted(DoubleTap, now)]) else Pairing(tapped)
  {
    var tapped := log + [Emitted(Tap, now)];
    var t := if Paired(tapped, |log|) then tapped + [Emitted(DoubleTap, now)] else tapped;
    forall i | Is(t, i, Tap)
      ensures Is(t, i - 1, Release) && Is(t, i - 2, Press) && (Is(t, i + 1, DoubleTap) <==> Paired(t, i))
    {
      if i < |log| { assert Is(log, i, Tap) && Paired(log, i) == Paired(t, i) && i + 1 < |log|; }
    }
    forall i | Is(t, i, DoubleTap) ensures Is(t, i - 1, Tap) {
      if i < |log| { assert Is(log, i, DoubleTap); }
    }
  }

  lemma {:induction false} PressKeepsTapping(g: Gesture, now: int)
    requires Tapping(g) && !g.pressed
    ensures Tapping(Pressed(g, now))
  {
    CountSnoc(g.log, Emitted(Press, now));
    PairingSnoc(g.log, Emitted(Press, now));
  }

  lemma {:induction false} TapKeepsTapping(g: Gesture, released: Gesture, now: int)
    requires Tapping(g) && g.pressed && !g.longTapFired && !g.holdFired
    requires released == g.(pressed := false, longTapArmed := false, holdArmed := false,
                            log := g.log + [Emitted(Release, now)])
    ensures Tapping(Tapped(released, now))
  {
    var log, tapped := released.log, released.log + [Emitted(Tap, now)];
    CountSnoc(g.log, Emitted(Release, now));
    PairingSnoc(g.log, Emitted(Release, now));
    CountSnoc(log, Emitted(Tap, now));
    CountSnoc(tapped, Emitted(DoubleTap, now));
    PairingTap(log, now);
    assert Paired(tapped, |log|) <==> g.lastTapValid && now - g.lastTapAt <= DOUBLE_TAP;
  }

  lemma {:induction false} ReleaseKeepsTapping(g: Gesture, now: int)
    requires Tapping(g)
    ensures Tapping(Released(g, now))
  {
    if g.pressed && !g.longTapFired && !g.holdFired {
      var up := g.(pressed := false, longTapArmed := false, holdArmed := false);
      TapKeepsTapping(g, up.(log := g.log + [Emitted(Release, now)]), now);
    } else if g.pressed {
      CountSnoc(g.log, Emitted(Release, now));
      PairingSnoc(g.log, Emitted(Release, now));
    }
  }

  lemma {:induction false} CallbacksKeepTapping(g: Gesture, now: int)
    requires Tapping(g)
    ensures Tapping(LongTapFires(g, now)) && Tapping(HoldFires(g, now))
  {
    if g.pressed {
      CountSnoc(g.log, Emitted(LongTap, now));
      PairingSnoc(g.log, Emitted(LongTap, now));
      CountSnoc(g.log, Emitted(Hold, now));
      PairingSnoc(g.log, Emitted(Hold, now));
    }
  }

  lemma {:induction false} StepKeepsTapping(b: Button, op: Op, now: int)
    requires Tapping(b.g)
    ensures Tapping(Step(b, op, now).g)
  {
    CallbacksKeepTapping(b.g, now);
    if Enabled(b, op, now) && op.Input? {
      if op.pressed { PressKeepsTapping(b.g, now); } else { ReleaseKeepsTapping(b.g, now); }
    }
  }

  lemma {:induction false} RunKeepsTapping(ops: seq<(int, Op)>)
    ensures Tapping(Run(UNTOUCHED, ops).g)
  {
    if ops == [] {
    } else {
      var last := ops[|ops| - 1];
      RunKeepsTapping(ops[..|ops| - 1]);
      StepKeepsTapping(Run(UNTOUCHED, ops[..|ops| - 1]), last.1, last.0);
    }
  }

  /** Over every run, late callbacks or not: two taps are spent on every double tap. A double
      tap ends tap, press, release, tap, so nothing and in particular no long tap or hold
      lies between its two taps, which are within the window; and every such pair gets its
      double tap unless the first tap was spent on one before. */
  lemma {:induction false} DoubleTapsPair(ops: seq<(int, Op)>, k: nat)
    ensures var g := Run(UNTOUCHED, ops).g;
      2 * Count(g.log, DoubleTap) + (if g.lastTapValid then 1 else 0) <= Count(g.log, Tap)
    ensures var log := Run(UNTOUCHED, ops).g.log;
      Is(log, k, DoubleTap) ==>
        Is(log, k - 4, Tap) && Is(log, k - 3, Press) && Is(log, k - 2, Release) && Is(log, k - 1, Tap)
        && log[k - 1].at - log[k - 4].at <= DOUBLE_TAP
    ensures var log := Run(UNTOUCHED, ops).g.log;
      (Is(log, k, Tap) && Is(log, k + 3, Tap) && log[k + 3].at - log[k].at <= DOUBLE_TAP) ==> Is(log, k + 4, DoubleTap)
  {
    RunKeepsTapping(ops);
    var log := Run(UNTOUCHED, ops).g.log;
    if Is(log, k, DoubleTap) { assert Paired(log, k - 1); }
    if Is(log, k + 3, Tap) && Is(log, k, Tap) && log[k + 3].at - log[k].at <= DOUBLE_TAP { assert Paired(log, k + 3); }
  }

  // The grammar of the log, and exactly when it is left

  /** Press, then either release and tap, perhaps double tap, or long tap, perhaps hold, and
      release. */
  datatype Mode = Up | AfterTap | Down | Long | Held | Lifted | Wrong

  function Read(m: Mode, k: Kind): Mode {
    match (m, k)
    case (Up, Press) => Down
    case (AfterTap, Press) => Down
    case (AfterTap, DoubleTap) => Up
    case (Down, Release) => Lifted
    case (Lifted, Tap) => AfterTap
    case (Down, LongTap) => Long
    case (Long, Hold) => Held
    case (Long, Release) => Up
    case (Held, Release) => Up
    case _ => Wrong
  }

  function Reading(log: seq<Emitted>): Mode {
    if log == [] then Up else Read(Reading(log[..|log| - 1]), log[|log| - 1].kind)
  }

  /** The log is in the grammar, where the fields say. */
  ghost predicate Grammatical(g: Gesture) {
    && Reading(g.log) == (if !g.pressed then (if Is(g.log, |g.log| - 1, Tap) then AfterTap else Up)
                          else if g.holdFired then Held else if g.longTapFired then Long else Down)
    && (g.pressed && g.holdFired ==> g.longTapFired)
  }

  /** A callback, late or not, meets a press that cannot take it: a long tap when one has been
      reported already, or a hold when no long tap has or a hold has. */
  predicate Repeats(b: Button, op: Op, now: int) {
    Enabled(b, op, now) && b.g.pressed
    && match op
       case Input(_) => false
       case LongTapTimer => b.g.longTapFired
       case LateLongTap => b.g.longTapFired
       case HoldTimer => !b.g.longTapFired || b.g.holdFired
       case LateHold => !b.g.longTapFired || b.g.holdFired
  }

  lemma {:induction false} ReadSnoc(log: seq<Emitted>, e: Emitted)
    ensures Reading(log + [e]) == Read(Reading(log), e.kind)
  {
    assert (log + [e])[..|log|] == log;
  }

  lemma {:induction false} ReleaseKeepsGrammar(g: Gesture, now: int)
    requires Grammatical(g)
    ensures Grammatical(Released(g, now))
  {
    hide Reading;
    if g.pressed {
      var released := g.log + [Emitted(Release, now)];
      ReadSnoc(g.log, Emitted(Release, now));
      ReadSnoc(released, Emitted(Tap, now));
      ReadSnoc(released + [Emitted(Tap, now)], Emitted(DoubleTap, now));
    }
  }

  lemma {:induction false} InputKeepsGrammar(g: Gesture, pressed: bool, now: int)
    requires Grammatical(g) && !(pressed && g.pressed)
    ensures Grammatical(Changed(g, pressed, now))
  {
    if pressed {
      ReadSnoc(g.log, Emitted(Press, now));
    } else {
      ReleaseKeepsGrammar(g, now);
    }
  }

  lemma {:induction false} CallbackGrammar(g: Gesture, now: int)
    requires Grammatical(g)
    ensures var t := LongTapFires(g, now);
      if g.pressed && g.longTapFired then Reading(t.log) == Wrong else Grammatical(t)
    ensures var t := HoldFires(g, now);
      if g.pressed && (!g.longTapFired || g.holdFired) then Reading(t.log) == Wrong else Grammatical(t)
  {
    ReadSnoc(g.log, Emitted(LongTap, now));
    ReadSnoc(g.log, Emitted(Hold, now));
  }

  /** One step leaves the grammar exactly when a callback meets a press that cannot take it. */
  lemma {:induction false} StepKeepsGrammar(b: Button, op: Op, now: int)
    requires Grammatical(b.g)
    ensures var t := Step(b, op, now).g; if Repeats(b, op, now) then Reading(t.log) == Wrong else Grammatical(t)
  {
    if Enabled(b, op, now) {
      CallbackGrammar(b.g, now);
      if op.Input? { InputKeepsGrammar(b.g, op.pressed, now); }
    }
  }

  lemma {:induction false} WrongStays(log: seq<Emitted>, more: seq<Emitted>)
    requires Reading(log) == Wrong && log <= more
    ensures Reading(more) == Wrong
  {
    if log == more {
    } else {
      var front := more[..|more| - 1];
      assert log <= front;
      WrongStays(log, front);
    }
  }

  lemma {:induction false} LogsGrow(b: Button, op: Op, now: int)
    ensures b.g.log <= Step(b, op, now).g.log
  {
  }

  /** The `k`-th step of a run is such a callback. */
  predicate RepeatsAt(ops: seq<(int, Op)>, k: nat)
    requires k < |ops|
  {
    Repeats(Run(UNTOUCHED, ops[..k]), ops[k].1, ops[k].0)
  }

  lemma {:induction false} PrefixLeavesGrammar(ops: seq<(int, Op)>, k: nat)
    requires k <= |ops|
    ensures var g := Run(UNTOUCHED, ops[..k]).g;
      if exists i: nat :: i < k && RepeatsAt(ops, i) then Reading(g.log) == Wrong else Grammatical(g)
  {
    if k == 0 {
    } else {
      var before, last := Run(UNTOUCHED, ops[..k - 1]), ops[k - 1];
      assert ops[..k][..k - 1] == ops[..k - 1];
      PrefixLeavesGrammar(ops, k - 1);
      if exists i: nat :: i < k - 1 && RepeatsAt(ops, i) {
        LogsGrow(before, last.1, last.0);
        WrongStays(before.g.log, Step(before, last.1, last.0).g.log);
      } else {
        StepKeepsGrammar(before, last.1, last.0);
        assert RepeatsAt(ops, k - 1) == Repeats(before, last.1, last.0);
      }
    }
  }

  /** The log of a run is out of the grammar exactly when somewhere a long tap was reported
      twice in one press, or a hold twice or before the long tap. */
  lemma {:induction false} RunLeavesGrammarExactly(ops: seq<(int, Op)>)
    ensures Reading(Run(UNTOUCHED, ops).g.log) == Wrong <==> exists k: nat :: k < |ops| && RepeatsAt(ops, k)
  {
    assert ops[..|ops|] == ops;
    PrefixLeavesGrammar(ops, |ops|);
  }

  // Each timer speaks once, for its own press

  /** The log is in the grammar, and what has fired is what is no longer armed. */
  ghost predicate Cycling(g: Gesture) {
    Grammatical(g) && (g.longTapArmed <==> g.pressed && !g.longTapFired) && (g.holdArmed <==> g.pressed && !g.holdFired)
  }

  /** One step makes a press speak for another's timer, or twice, exactly when a late callback
      meets a press. */
  lemma {:induction false} StepKeepsCycling(b: Button, op: Op, now: int)
    requires Cycling(b.g)
    ensures Cycling(Step(b, op, now).g) <==> !MeetsPress(b, op, now)
  {
    StepKeepsGrammar(b, op, now);
  }

  /** The `k`-th step of a run is a late callback that meets a press. */
  predicate MeetsAt(ops: seq<(int, Op)>, k: nat)
    requires k < |ops|
  {
    MeetsPress(Run(UNTOUCHED, ops[..k]), ops[k].1, ops[k].0)
  }

  lemma {:induction false} OneMoreStep(ops: seq<(int, Op)>, k: nat)
    requires k < |ops| && Cycling(Run(UNTOUCHED, ops[..k]).g)
    ensures Cycling(Run(UNTOUCHED, ops[..k + 1]).g) <==> !MeetsAt(ops, k)
  {
    assert ops[..k + 1][..k] == ops[..k];
    StepKeepsCycling(Run(UNTOUCHED, ops[..k]), ops[k].1, ops[k].0);
  }

  lemma {:induction false} CyclesUntilMet(ops: seq<(int, Op)>, k: nat)
    requires k <= |ops| && forall i: nat | i < k :: !MeetsAt(ops, i)
    ensures Cycling(Run(UNTOUCHED, ops[..k]).g)
  {
    if k == 0 {
    } else {
      CyclesUntilMet(ops, k - 1);
      OneMoreStep(ops, k - 1);
    }
  }

  /** Along a run each timer speaks once and for its own press exactly as long as no late
      callback meets a press; so without such a meeting the grammar is kept, too. */
  lemma {:induction false} RunCyclesExactly(ops: seq<(int, Op)>)
    ensures (forall k: nat | k <= |ops| :: Cycling(Run(UNTOUCHED, ops[..k]).g))
       <==> (forall k: nat | k < |ops| :: !MeetsAt(ops, k))
  {
    if forall k: nat | k < |ops| :: !MeetsAt(ops, k) {
      forall k: nat | k <= |ops| ensures Cycling(Run(UNTOUCHED, ops[..k]).g) { CyclesUntilMet(ops, k); }
    } else {
      var k: nat :| k < |ops| && MeetsAt(ops, k);
      if Cycling(Run(UNTOUCHED, ops[..k]).g) { OneMoreStep(ops, k); }
    }
  }

  /** A press that nothing has fired for yet, met by a late long tap: released before its own
      timer it has a long tap too early, and held on it has two. A late hold is out of order
      at once. */
  lemma {:induction false} MeetingAPress(b: Button, late: int, own: int)
    requires Cycling(b.g) && b.g.pressed && !b.g.longTapFired && !b.g.holdFired
    ensures b.lateLongTaps > 0 ==>
      var met := Step(b, LateLongTap, late);
      Reading(met.g.log) == Long && Grammatical(Step(met, Input(false), own).g)
      && (own - b.g.pressTime >= LONG_TAP ==> Reading(Step(met, LongTapTimer, own).g.log) == Wrong)
    ensures b.lateHolds > 0 ==> Reading(Step(b, LateHold, late).g.log) == Wrong
  {
    StepKeepsGrammar(b, LateLongTap, late);
    StepKeepsGrammar(b, LateHold, late);
    StepKeepsGrammar(Step(b, LateLongTap, late), Input(false), own);
    StepKeepsGrammar(Step(b, LateLongTap, late), LongTapTimer, own);
  }

  lemma {:induction false} RunSnoc(ops: seq<(int, Op)>, now: int, op: Op)
    ensures Run(UNTOUCHED, ops + [(now, op)]) == Step(Run(UNTOUCHED, ops), op, now)
  {
    assert (ops + [(now, op)])[..|ops|] == ops;
  }

  /** Released just when its timer runs out and pressed again at once: the late callback
      counts for the second press. */
  lemma {:induction false} SecondPressIsMet()
    ensures var log :=
        [Emitted(Press, 0), Emitted(Release, 800), Emitted(Tap, 800), Emitted(Press, 801), Emitted(LongTap, 802)];
      Run(UNTOUCHED, [(0, Input(true)), (800, Input(false)), (801, Input(true)), (802, LateLongTap)])
      == Button(Gesture(true, 801, true, true, true, false, 800, false, log), 0, 0)
  {
    var a, b, c := (0, Input(true)), (800, Input(false)), (801, Input(true));
    RunSnoc([], 0, Input(true));
    RunSnoc([a], 800, Input(false));
    RunSnoc([a, b], 801, Input(true));
    RunSnoc([a, b, c], 802, LateLongTap);
    assert [] + [a] == [a] && [a] + [b] == [a, b] && [a, b] + [c] == [a, b, c];
    assert Run(UNTOUCHED, [a, b]).g.log == [Emitted(Press, 0), Emitted(Release, 800), Emitted(Tap, 800)];
    assert [a, b, c] + [(802, LateLongTap)] == [a, b, c, (802, LateLongTap)];
  }

  /** Its own timer then speaks a second time, and the log has left the grammar. */
  lemma {:induction false} ReleasedAsTheTimerRunsOut()
    ensures var met := [(0, Input(true)), (800, Input(false)), (801, Input(true)), (802, LateLongTap)];
      var log := Run(UNTOUCHED, met + [(1601, LongTapTimer)]).g.log;
      log == [Emitted(Press, 0), Emitted(Release, 800), Emitted(Tap, 800),
              Emitted(Press, 801), Emitted(LongTap, 802), Emitted(LongTap, 1601)]
      && Reading(log) == Wrong
  {
    var met := [(0, Input(true)), (800, Input(false)), (801, Input(true)), (802, LateLongTap)];
    SecondPressIsMet();
    RunSnoc(met, 1601, LongTapTimer);
    var ops := met + [(1601, LongTapTimer)];
    assert ops[..4] == met && RepeatsAt(ops, 4);
    RunLeavesGrammarExactly(ops);
  }

  // The deduplicating layer below

  /** What a run hands to the detector. */
  function Inputs(ops: seq<(int, Op)>): seq<bool> {
    if ops == [] then []
    else Inputs(ops[..|ops| - 1]) + if ops[|ops| - 1].1.Input? then [ops[|ops| - 1].1.pressed] else []
  }

  function Reported(log: seq<D.Report>): seq<bool> { seq(|log|, i requires 0 <= i < |log| => log[i].value) }

  ghost predicate Alternating(values: seq<bool>) {
    forall i, j | 0 <= i < j < |values| && j == i + 1 :: values[i] != values[j]
  }

  lemma {:induction false} InputsSnoc(ops: seq<(int, Op)>, k: nat)
    requires k < |ops|
    ensures Inputs(ops[..k + 1]) == Inputs(ops[..k]) + if ops[k].1.Input? then [ops[k].1.pressed] else []
    ensures Run(UNTOUCHED, ops[..k + 1]) == Step(Run(UNTOUCHED, ops[..k]), ops[k].1, ops[k].0)
  {
    assert ops[..k + 1][..k] == ops[..k];
  }

  lemma {:induction false} InputsGrow(ops: seq<(int, Op)>, k: nat)
    requires k <= |ops|
    ensures Inputs(ops[..k]) <= Inputs(ops)
    decreases |ops| - k
  {
    if k == |ops| {
      assert ops[..k] == ops;
    } else {
      InputsSnoc(ops, k);
      InputsGrow(ops, k + 1);
    }
  }

  lemma NextValueDiffers(all: seq<bool>, given: seq<bool>, v: bool)
    requires Alternating(all) && given + [v] <= all
    ensures given != [] ==> v != given[|given| - 1]
  {
    if given != [] {
      var n := |given|;
      assert (given + [v])[n - 1] == all[n - 1] && (given + [v])[n] == all[n];
    }
  }

  lemma {:induction false} NextInputDiffers(ops: seq<(int, Op)>, k: nat)
    requires Alternating(Inputs(ops)) && k < |ops| && ops[k].1.Input?
    ensures var given := Inputs(ops[..k]); given != [] ==> ops[k].1.pressed != given[|given| - 1]
  {
    InputsSnoc(ops, k);
    InputsGrow(ops, k + 1);
    NextValueDiffers(Inputs(ops), Inputs(ops[..k]), ops[k].1.pressed);
  }

  lemma {:induction false} OnlyInputsPress(b: Button, op: Op, now: int)
    ensures Step(b, op, now).g.pressed == if op.Input? && Enabled(b, op, now) then op.pressed else b.g.pressed
  {
  }

  /** Whatever timers and late callbacks come between, the button is pressed exactly when the
      last input said so, and no input is dropped. */
  lemma {:induction false} AlternatingInputIsTaken(ops: seq<(int, Op)>, k: nat)
    requires Alternating(Inputs(ops)) && k <= |ops|
    ensures var given := Inputs(ops[..k]);
      Run(UNTOUCHED, ops[..k]).g.pressed == (given != [] && given[|given| - 1])
    ensures k < |ops| && ops[k].1.Input? ==> Enabled(Run(UNTOUCHED, ops[..k]), ops[k].1, ops[k].0)
  {
    if k == 0 {
    } else {
      AlternatingInputIsTaken(ops, k - 1);
      InputsSnoc(ops, k - 1);
      OnlyInputsPress(Run(UNTOUCHED, ops[..k - 1]), ops[k - 1].1, ops[k - 1].0);
    }
    if k < |ops| && ops[k].1.Input? { NextInputDiffers(ops, k); }
  }

  /** Fed from a debounced line, the detector takes every report of every run. */
  lemma {:induction false} DebouncedInputIsTaken(
      seed: Option<bool>, start: int, line: seq<(nat, D.Op)>, ops: seq<(int, Op)>, k: nat)
    requires Inputs(ops) == Reported(D.Run(D.Idle(seed, start), line).log) && k < |ops| && ops[k].1.Input?
    ensures Enabled(Run(UNTOUCHED, ops[..k]), ops[k].1, ops[k].0)
  {
    D.RunReports(seed, start, line);
    AlternatingInputIsTaken(ops, k);
  }
}
