/** The blinker worker and its callers, interleaved step by step. Callers (switch edges,
    requests, shutdown) take turns under one mutex; a turn stops the old worker, waits for
    it to exit, and may start a new one, which then runs beside later turns until stopped. */
module BlinkerProtocol {
  import opened Definition

  datatype Side = Off | Left | Right | Both

  datatype Channel = LeftSwitch | RightSwitch

  datatype Caller = SwitchEdge(channel: Channel, on: bool) | Request(text: string) | Shutdown

  datatype Kind = Cue | Switch | Button | Published

  /** One write that went out: in which turn, for which side, and what. */
  datatype Write = Write(turn: nat, side: Side, kind: Kind)

  /** Where the caller whose turn it is stands. */
  datatype Phase =
    | Stopping
    | Joining(previous: Option<nat>)
    | Writing(rest: seq<Kind>, side: Side)
    | Starting(worker: nat)
    | Leaving

  datatype Turn = Turn(caller: Caller, phase: Phase)

  /** Where a worker stands: it publishes, hands its result to the waiting caller, plays its
      cue, and then loops: look for the stop signal, wait, decide, publish a moved phase, play. */
  datatype Place = Publishing | Announcing | Cueing | Looking | Armed | Deciding | Exited

  datatype Worker = Worker(turn: nat, side: Side, stopped: bool, place: Place)

  datatype State = State(
    holder: Option<Turn>, closed: bool, turn: nat,
    current: Option<nat>, workers: seq<Worker>, remembered: Side, trace: seq<Write>)

  const INITIAL := State(None, false, 0, None, [], Off, [])

  datatype Move =
    | Invalid(caller: Caller)
    | Acquire(caller: Caller)
    | Stop
    | Join(peer: Option<bool>)
    | Emit(ok: bool)
    | Spawn
    | Started
    | Release
    | Publish(worker: nat, ok: bool)
    | PlayCue(worker: nat, ok: bool)
    | Look(worker: nat)
    | Tick(worker: nat)
    | Timer(worker: nat)
    | Republish(worker: nat, moved: bool, ok: bool)

  function Requested(text: string): Option<Side> {
    if text == "off" then Some(Off)
    else if text == "left" then Some(Left)
    else if text == "right" then Some(Right)
    else if text == "both" then Some(Both)
    else None
  }

  predicate Rejected(c: Caller) { c.Request? && Requested(c.text) == None }

  predicate Shows(side: Side, channel: Channel) {
    side == Both || side == if channel == LeftSwitch then Left else Right
  }

  function Combined(left: bool, right: bool): Side {
    if left && right then Both else if right then Right else if left then Left else Off
  }

  /** The side a caller asks for. The other switch is read, or taken from the remembered
      side when it cannot be read. */
  function Wanted(c: Caller, peer: Option<bool>, remembered: Side): Side {
    match c
    case SwitchEdge(LeftSwitch, on) => Combined(on, if peer.Some? then peer.value else Shows(remembered, RightSwitch))
    case SwitchEdge(RightSwitch, on) => Combined(if peer.Some? then peer.value else Shows(remembered, LeftSwitch), on)
    case Request(text) => if Requested(text).Some? then Requested(text).value else Off
    case Shutdown => Off
  }

  /** What the caller writes itself; for a lit side the new worker publishes and plays. */
  function Script(c: Caller, side: Side): seq<Kind> {
    match c
    case SwitchEdge(_, _) => if side == Off then [Cue, Switch, Button, Published] else [Switch, Button]
    case Request(_) => if side == Off then [Cue, Published] else []
    case Shutdown => []
  }

  predicate Live(s: State, w: nat) { w < |s.workers| && s.workers[w].place != Exited }

  predicate At(s: State, w: nat, p: Place) { w < |s.workers| && s.workers[w].place == p }

  predicate Phased(s: State) { s.holder.Some? }

  predicate Enabled(s: State, m: Move) {
    match m
    case Invalid(c) => Rejected(c)
    case Acquire(c) => s.holder == None && !Rejected(c)
    case Stop => Phased(s) && s.holder.value.phase == Stopping
    case Join(_) =>
      Phased(s) && s.holder.value.phase.Joining?
      && (s.holder.value.phase.previous.Some? ==> At(s, s.holder.value.phase.previous.value, Exited))
    case Emit(_) => Phased(s) && s.holder.value.phase.Writing? && s.holder.value.phase.rest != []
    case Spawn => Phased(s) && s.holder.value.phase.Writing? && s.holder.value.phase.rest == []
    case Started => Phased(s) && s.holder.value.phase.Starting? && At(s, s.holder.value.phase.worker, Announcing)
    case Release => Phased(s) && s.holder.value.phase == Leaving
    case Publish(w, _) => At(s, w, Publishing)
    case PlayCue(w, _) => At(s, w, Cueing)
    case Look(w) => At(s, w, Looking)
    case Tick(w) => At(s, w, Armed)
    case Timer(w) => At(s, w, Armed)
    case Republish(w, _, _) => At(s, w, Deciding)
  }

  function To(s: State, p: Phase): State
    requires Phased(s)
  {
    s.(holder := Some(s.holder.value.(phase := p)))
  }

  function Put(s: State, w: nat, p: Place): State
    requires w < |s.workers|
  {
    s.(workers := s.workers[w := s.workers[w].(place := p)])
  }

  function Logged(s: State, turn: nat, side: Side, kind: Kind, ok: bool): State {
    if ok then s.(trace := s.trace + [Write(turn, side, kind)]) else s
  }

  function Acquired(s: State, c: Caller): State {
    s.(turn := s.turn + 1, closed := s.closed || c == Shutdown,
       holder := Some(Turn(c, if s.closed && c != Shutdown then Leaving else Stopping)))
  }

  /** Takes the stop channel and closes it. */
  function StopSent(s: State): State
    requires Phased(s) && (s.current.Some? ==> s.current.value < |s.workers|)
  {
    var t := To(s, Joining(s.current)).(current := None);
    if s.current == None then t
    else var w := s.current.value; t.(workers := s.workers[w := s.workers[w].(stopped := true)])
  }

  function Joined(s: State, peer: Option<bool>): State
    requires Phased(s)
  {
    var c := s.holder.value.caller;
    if c == Shutdown then To(s, Leaving)
    else
      var side := Wanted(c, peer, s.remembered);
      To(s, Writing(Script(c, side), side)).(remembered := if c.Request? then side else s.remembered)
  }

  /** A failed button publication is ignored; any other failure ends the turn. */
  function Emitted(s: State, ok: bool): State
    requires Enabled(s, Emit(ok))
  {
    var p := s.holder.value.phase;
    var next := if ok || p.rest[0] == Button then Writing(p.rest[1..], p.side) else Leaving;
    Logged(To(s, next), s.turn, p.side, p.rest[0], ok)
  }

  function Spawned(s: State): State
    requires Enabled(s, Spawn)
  {
    var side := s.holder.value.phase.side;
    if side == Off then To(s, Leaving).(remembered := Off)
    else
      To(s, Starting(|s.workers|)).(
        current := Some(|s.workers|), remembered := side,
        workers := s.workers + [Worker(s.turn, side, false, Publishing)])
  }

  function Next(s: State, m: Move): State
    requires Enabled(s, m) && (s.current.Some? ==> s.current.value < |s.workers|)
  {
    match m
    case Invalid(_) => s
    case Acquire(c) => Acquired(s, c)
    case Stop => StopSent(s)
    case Join(peer) => Joined(s, peer)
    case Emit(ok) => Emitted(s, ok)
    case Spawn => Spawned(s)
    case Started => To(Put(s, s.holder.value.phase.worker, Cueing), Leaving)
    case Release => s.(holder := None)
    case Publish(w, ok) => Logged(Put(s, w, Announcing), s.workers[w].turn, s.workers[w].side, Published, ok)
    case PlayCue(w, ok) => Logged(Put(s, w, Looking), s.workers[w].turn, s.workers[w].side, Cue, ok)
    case Look(w) => Put(s, w, if s.workers[w].stopped then Exited else Armed)
    case Tick(w) => Put(s, w, Looking)
    case Timer(w) => Put(s, w, if s.workers[w].stopped then Exited else Deciding)
    case Republish(w, moved, ok) =>
      Logged(Put(s, w, Cueing), s.workers[w].turn, s.workers[w].side, Published, moved && ok)
  }

  /** Who may be alive: only the worker behind the stop channel, or the one being joined. */
  ghost predicate Owners(s: State) {
    && (s.current.Some? ==> s.current.value < |s.workers|)
    && (forall w | 0 <= w < |s.workers| :: s.current == Some(w) <==> !s.workers[w].stopped)
    && (forall w: nat | At(s, w, Exited) :: s.workers[w].stopped)
    && (forall w: nat | Live(s, w) :: s.current == Some(w) || (Phased(s) && s.holder.value.phase == Joining(Some(w))))
    && (forall w | 0 <= w < |s.workers| ::
          At(s, w, Publishing) || At(s, w, Announcing) <==> Phased(s) && s.holder.value.phase == Starting(w))
  }

  /** A turn past its stop has no worker behind the channel until it starts one. */
  ghost predicate TurnValid(s: State) {
    Phased(s) ==>
      match s.holder.value.phase
      case Stopping => s.closed == (s.holder.value.caller == Shutdown)
      case Joining(previous) =>
        s.closed == (s.holder.value.caller == Shutdown) && s.current == None
        && (previous.Some? ==> previous.value < |s.workers|)
      case Writing(rest, side) => s.current == None && !s.closed && s.holder.value.caller != Shutdown && |rest| <= 4
      case Starting(w) => s.current == Some(w) && !s.closed && s.holder.value.caller != Shutdown
      case Leaving => (s.closed ==> s.current == None) && (s.holder.value.caller == Shutdown ==> s.closed)
  }

  ghost predicate ClosedValid(s: State) {
    s.closed && s.current.Some? ==> Phased(s) && s.holder.value == Turn(Shutdown, Stopping)
  }

  /** Writes are ordered by turn, and a turn speaks for one side. */
  ghost predicate Ordered(trace: seq<Write>) {
    && (forall i, j | 0 <= i < j < |trace| :: trace[i].turn <= trace[j].turn)
    && (forall i, j | 0 <= i < j < |trace| && trace[i].turn == trace[j].turn :: trace[i].side == trace[j].side)
  }

  /** Nothing later than turn `t` has been written, and turn `t` only for `side`. */
  ghost predicate UpTo(trace: seq<Write>, t: nat, side: Side) {
    forall x | x in trace :: x.turn <= t && (x.turn == t ==> x.side == side)
  }

  /** The turn has not written yet, nor has any worker been started in it. */
  ghost predicate Before(s: State) {
    (forall x | x in s.trace :: x.turn < s.turn) && forall w: nat | Live(s, w) :: s.workers[w].turn < s.turn
  }

  ghost predicate Spoken(s: State) {
    && Ordered(s.trace)
    && (forall x | x in s.trace :: x.turn <= s.turn)
    && (forall w: nat | Live(s, w) ::
          s.workers[w].turn <= s.turn && UpTo(s.trace, s.workers[w].turn, s.workers[w].side))
    && (Phased(s) ==>
          match s.holder.value.phase
          case Stopping => Before(s)
          case Joining(_) => Before(s)
          case Writing(_, side) => UpTo(s.trace, s.turn, side)
          case Starting(w) => w < |s.workers| && s.workers[w].turn == s.turn
          case Leaving => true)
    && (s.current.Some? ==> s.current.value < |s.workers| && s.workers[s.current.value].side == s.remembered)
  }

  ghost predicate Valid(s: State) { Owners(s) && TurnValid(s) && ClosedValid(s) && Spoken(s) }

  predicate OfWorker(m: Move) { m.Publish? || m.PlayCue? || m.Look? || m.Tick? || m.Timer? || m.Republish? }

  lemma StopKeepsOwners(s: State)
    requires Enabled(s, Stop) && Owners(s)
    ensures Owners(StopSent(s))
  {
    var t := StopSent(s);
    forall w: nat | Live(t, w) ensures t.holder.value.phase == Joining(Some(w)) { assert Live(s, w); }
    forall w: nat | At(t, w, Exited) ensures t.workers[w].stopped { assert At(s, w, Exited); }
  }

  lemma SpawnKeepsOwners(s: State)
    requires Enabled(s, Spawn) && Owners(s) && TurnValid(s)
    ensures Owners(Spawned(s))
  {
    var t := Spawned(s);
    forall w: nat | Live(t, w) ensures t.current == Some(w) { assert w < |s.workers| ==> Live(s, w); }
    forall w: nat | At(t, w, Exited) ensures t.workers[w].stopped { assert At(s, w, Exited); }
    forall w | 0 <= w < |t.workers| ensures t.current == Some(w) <==> !t.workers[w].stopped {
      assert w < |s.workers| ==> s.current != Some(w);
    }
  }

  lemma StartedKeepsOwners(s: State)
    requires Enabled(s, Started) && Owners(s) && TurnValid(s)
    ensures Owners(Next(s, Started))
  {
    var t := Next(s, Started);
    forall w: nat | Live(t, w) ensures t.current == Some(w) { assert Live(s, w); }
    forall w: nat | At(t, w, Exited) ensures t.workers[w].stopped { assert At(s, w, Exited); }
  }

  /** Moves that leave the workers and the stop channel as they are, and neither begin nor end
      a join or a start that a worker is part of. */
  lemma OthersKeepOwners(s: State, t: State)
    requires Owners(s) && t.workers == s.workers && t.current == s.current
    requires forall w: nat | Live(s, w) && s.current != Some(w) ::
      Phased(t) && t.holder.value.phase == Joining(Some(w))
    requires forall w: nat | w < |s.workers| ::
      (Phased(t) && t.holder.value.phase == Starting(w)) == (Phased(s) && s.holder.value.phase == Starting(w))
    ensures Owners(t)
  {
    forall w: nat | Live(t, w)
      ensures t.current == Some(w) || (Phased(t) && t.holder.value.phase == Joining(Some(w)))
    {
      assert Live(s, w);
    }
    forall w: nat | At(t, w, Exited) ensures t.workers[w].stopped { assert At(s, w, Exited); }
    forall w: nat | w < |t.workers|
      ensures At(t, w, Publishing) || At(t, w, Announcing) <==> Phased(t) && t.holder.value.phase == Starting(w)
    {
      assert At(t, w, Publishing) == At(s, w, Publishing) && At(t, w, Announcing) == At(s, w, Announcing);
    }
  }

  lemma AcquireKeepsOwners(s: State, c: Caller)
    requires Enabled(s, Acquire(c)) && Owners(s)
    ensures Owners(Acquired(s, c))
  {
    OthersKeepOwners(s, Acquired(s, c));
  }

  lemma JoinKeepsOwners(s: State, peer: Option<bool>)
    requires Enabled(s, Join(peer)) && Owners(s) && TurnValid(s)
    ensures Owners(Joined(s, peer))
  {
    OthersKeepOwners(s, Joined(s, peer));
  }

  lemma EmitKeepsOwners(s: State, ok: bool)
    requires Enabled(s, Emit(ok)) && Owners(s) && TurnValid(s)
    ensures Owners(Emitted(s, ok))
  {
    OthersKeepOwners(s, Emitted(s, ok));
  }

  lemma ReleaseKeepsOwners(s: State)
    requires Enabled(s, Release) && Owners(s) && TurnValid(s)
    ensures Owners(Next(s, Release))
  {
    OthersKeepOwners(s, Next(s, Release));
  }

  lemma TurnKeepsOwners(s: State, m: Move)
    requires Enabled(s, m) && !OfWorker(m) && Owners(s) && TurnValid(s)
    ensures Owners(Next(s, m))
  {
    match m
    case Acquire(c) => AcquireKeepsOwners(s, c);
    case Stop => StopKeepsOwners(s);
    case Join(peer) => JoinKeepsOwners(s, peer);
    case Emit(ok) => EmitKeepsOwners(s, ok);
    case Spawn => SpawnKeepsOwners(s);
    case Started => StartedKeepsOwners(s);
    case Release => ReleaseKeepsOwners(s);
    case Invalid(_) =>
  }

  /** A worker that moves on without leaving or re-entering its start-up. */
  lemma PutKeepsOwners(s: State, t: State, w: nat, p: Place)
    requires Owners(s) && Live(s, w) && t == Put(s, w, p).(trace := t.trace)
    requires p == Exited ==> s.workers[w].stopped
    requires p == Publishing || p == Announcing <==> At(s, w, Publishing) || At(s, w, Announcing)
    ensures Owners(t)
  {
    forall v: nat | Live(t, v) ensures t.current == Some(v) || (Phased(t) && t.holder.value.phase == Joining(Some(v))) {
      assert Live(s, v);
    }
    forall v: nat | At(t, v, Exited) ensures t.workers[v].stopped {
      assert v != w ==> At(s, v, Exited);
    }
  }

  function Goal(s: State, m: Move): Place
    requires Enabled(s, m) && OfWorker(m)
  {
    match m
    case Publish(w, _) => Announcing
    case PlayCue(w, _) => Looking
    case Look(w) => if s.workers[w].stopped then Exited else Armed
    case Tick(w) => Looking
    case Timer(w) => if s.workers[w].stopped then Exited else Deciding
    case Republish(w, _, _) => Cueing
  }

  lemma NextKeepsOwners(s: State, m: Move)
    requires Enabled(s, m) && Owners(s) && TurnValid(s)
    ensures Owners(Next(s, m))
  {
    if OfWorker(m) { PutKeepsOwners(s, Next(s, m), m.worker, Goal(s, m)); } else { TurnKeepsOwners(s, m); }
  }

  lemma CallerKeepsTurn(s: State, m: Move)
    requires Enabled(s, m) && !OfWorker(m) && (s.current.Some? ==> s.current.value < |s.workers|)
    requires TurnValid(s) && ClosedValid(s)
    ensures TurnValid(Next(s, m)) && ClosedValid(Next(s, m))
  {
    hide Wanted;
    assert |Next(s, m).workers| >= |s.workers|;
  }

  lemma NextKeepsTurn(s: State, m: Move)
    requires Enabled(s, m) && Owners(s) && TurnValid(s) && ClosedValid(s)
    ensures TurnValid(Next(s, m)) && ClosedValid(Next(s, m))
  {
    if OfWorker(m) {
      var t := Next(s, m);
      assert t.holder == s.holder && t.closed == s.closed && t.current == s.current && |t.workers| == |s.workers| by {
        hide Owners, TurnValid, ClosedValid;
      }
    } else {
      hide Owners, Wanted, Script;
      CallerKeepsTurn(s, m);
    }
  }

  lemma OneLiveWorker(s: State, v: nat, w: nat)
    requires Valid(s) && Live(s, v) && Live(s, w)
    ensures v == w
  {
  }

  lemma LogKeepsOrder(trace: seq<Write>, x: Write)
    requires Ordered(trace) && UpTo(trace, x.turn, x.side)
    ensures Ordered(trace + [x]) && UpTo(trace + [x], x.turn, x.side)
  {
    forall i | 0 <= i < |trace|
      ensures trace[i].turn <= x.turn && (trace[i].turn == x.turn ==> trace[i].side == x.side)
    {
      assert trace[i] in trace;
    }
  }

  lemma PutKeepsSpoken(s: State, w: nat, p: Place)
    requires Spoken(s) && Live(s, w)
    ensures Spoken(Put(s, w, p))
  {
    var t := Put(s, w, p);
    assert forall v: nat | Live(t, v) :: Live(s, v);
  }

  lemma WorkerWriteKeepsSpoken(s: State, w: nat, kind: Kind, ok: bool)
    requires Valid(s) && Live(s, w)
    ensures Spoken(Logged(s, s.workers[w].turn, s.workers[w].side, kind, ok))
  {
    LogKeepsOrder(s.trace, Write(s.workers[w].turn, s.workers[w].side, kind));
    forall v: nat | Live(s, v) ensures v == w { OneLiveWorker(s, v, w); }
  }

  lemma WorkerKeepsSpoken(s: State, m: Move)
    requires Enabled(s, m) && OfWorker(m) && Valid(s)
    ensures Spoken(Next(s, m))
  {
    var w := m.worker;
    assert Live(s, w);
    var kind := if m.PlayCue? then Cue else Published;
    var ok := if m.Publish? || m.PlayCue? then m.ok else if m.Republish? then m.moved && m.ok else false;
    WorkerWriteKeepsSpoken(s, w, kind, ok);
    PutKeepsSpoken(Logged(s, s.workers[w].turn, s.workers[w].side, kind, ok), w, Goal(s, m));
  }

  lemma SpawnKeepsSpoken(s: State)
    requires Enabled(s, Spawn) && Valid(s)
    ensures Spoken(Spawned(s))
  {
    var t := Spawned(s);
    assert forall v: nat | Live(t, v) && v < |s.workers| :: Live(s, v);
  }

  lemma AcquireKeepsSpoken(s: State, c: Caller)
    requires Enabled(s, Acquire(c)) && Spoken(s)
    ensures Spoken(Acquired(s, c))
  {
    assert forall v: nat | Live(Acquired(s, c), v) :: Live(s, v);
  }

  lemma StopKeepsSpoken(s: State)
    requires Enabled(s, Stop) && Spoken(s)
    ensures Spoken(StopSent(s))
  {
    assert forall v: nat | Live(StopSent(s), v) :: Live(s, v);
  }

  lemma JoinKeepsSpoken(s: State, peer: Option<bool>)
    requires Enabled(s, Join(peer)) && TurnValid(s) && Spoken(s)
    ensures Spoken(Joined(s, peer))
  {
    hide Wanted, Script;
    assert forall v: nat | Live(Joined(s, peer), v) :: Live(s, v);
  }

  lemma StartedKeepsSpoken(s: State)
    requires Enabled(s, Started) && Spoken(s)
    ensures Spoken(Next(s, Started))
  {
    PutKeepsSpoken(s, s.holder.value.phase.worker, Cueing);
    assert forall v: nat | Live(Next(s, Started), v) :: Live(Put(s, s.holder.value.phase.worker, Cueing), v);
  }

  lemma ReleaseKeepsSpoken(s: State)
    requires Enabled(s, Release) && Owners(s) && Spoken(s)
    ensures Spoken(Next(s, Release))
  {
    assert forall v: nat | Live(Next(s, Release), v) :: Live(s, v);
  }

  lemma EmitKeepsSpoken(s: State, ok: bool)
    requires Enabled(s, Emit(ok)) && Valid(s)
    ensures Spoken(Emitted(s, ok))
  {
    var p := s.holder.value.phase;
    LogKeepsOrder(s.trace, Write(s.turn, p.side, p.rest[0]));
    assert forall v: nat :: !Live(s, v);
    assert forall v: nat :: !Live(Emitted(s, ok), v);
  }

  lemma TurnKeepsSpoken(s: State, m: Move)
    requires Enabled(s, m) && !OfWorker(m) && Valid(s)
    ensures Spoken(Next(s, m))
  {
    hide Spoken, Acquired, StopSent, Joined, Emitted, Spawned;
    match m
    case Acquire(c) => AcquireKeepsSpoken(s, c);
    case Stop => StopKeepsSpoken(s);
    case Join(peer) => JoinKeepsSpoken(s, peer);
    case Emit(ok) => EmitKeepsSpoken(s, ok);
    case Spawn => SpawnKeepsSpoken(s);
    case Started => StartedKeepsSpoken(s);
    case Release => ReleaseKeepsSpoken(s);
    case Invalid(_) =>
  }

  lemma NextKeepsValid(s: State, m: Move)
    requires Enabled(s, m) && Valid(s)
    ensures Valid(Next(s, m))
  {
    NextKeepsOwners(s, m);
    NextKeepsTurn(s, m);
    if OfWorker(m) { WorkerKeepsSpoken(s, m); } else { TurnKeepsSpoken(s, m); }
  }

  /** A run takes the moves of an arbitrary schedule; one that is not possible does nothing. */
  ghost function Run(s: State, schedule: seq<Move>): (t: State)
    requires Valid(s)
    ensures Valid(t)
  {
    if schedule == [] then s
    else
      var before, m := Run(s, schedule[..|schedule| - 1]), schedule[|schedule| - 1];
      if Enabled(before, m) then NextKeepsValid(before, m); Next(before, m) else before
  }

  /** Under every schedule: one live worker at most, and a log in which everything an old
      worker wrote precedes what the next turn writes, each turn speaking for one side. */
  lemma {:induction false} EveryRunIsOrderly(schedule: seq<Move>)
    ensures var s := Run(INITIAL, schedule);
      Ordered(s.trace) && forall v: nat, w: nat | Live(s, v) && Live(s, w) :: v == w
  {
    var s := Run(INITIAL, schedule);
    forall v: nat, w: nat | Live(s, v) && Live(s, w) ensures v == w { OneLiveWorker(s, v, w); }
  }

  ghost predicate Silent(s: State) { s.closed && forall w: nat :: !Live(s, w) }

  /** A shutdown that has joined the worker leaves nobody who could write; so does any
      state in which the controller is closed and no shutdown is still joining. */
  lemma ShutdownSilences(s: State)
    requires Valid(s)
    ensures s.holder == Some(Turn(Shutdown, Leaving)) ==> Silent(s)
    ensures s.closed && (s.holder == None || s.holder.value.phase == Leaving) ==> Silent(s)
  {
  }

  lemma SilentStep(s: State, m: Move)
    requires Valid(s) && Silent(s) && Enabled(s, m)
    ensures Silent(Next(s, m)) && Next(s, m).trace == s.trace && Next(s, m).workers == s.workers
  {
    assert OfWorker(m) ==> Live(s, m.worker);
    assert s.current.Some? ==> Live(s, s.current.value);
  }

  /** ... so nothing is played or published ever after, whatever still arrives. */
  lemma {:induction false} SilentForever(s: State, schedule: seq<Move>)
    requires Valid(s) && Silent(s)
    ensures Silent(Run(s, schedule)) && Run(s, schedule).trace == s.trace
  {
    if schedule == [] {
    } else {
      var front, m := schedule[..|schedule| - 1], schedule[|schedule| - 1];
      SilentForever(s, front);
      if Enabled(Run(s, front), m) { SilentStep(Run(s, front), m); }
    }
  }

  /** Steps a worker that was told to stop still has before it exits. */
  function Rank(p: Place): nat {
    match p
    case Publishing => 6
    case Announcing => 5
    case Deciding => 4
    case Cueing => 3
    case Armed => 2
    case Looking => 1
    case Exited => 0
  }

  /** Steps until the turn ends. */
  function Work(s: State): nat {
    if s.holder == None then 0
    else match s.holder.value.phase
      case Stopping => 20
      case Joining(previous) =>
        12 + if previous.Some? && previous.value < |s.workers| then Rank(s.workers[previous.value].place) else 0
      case Writing(rest, side) => |rest| + if side == Off then 2 else 4
      case Starting(w) => if At(s, w, Publishing) then 3 else 2
      case Leaving => 1
  }

  /** The worker the turn is waiting for. */
  function Awaited(s: State): Option<nat> {
    if s.holder == None then None
    else match s.holder.value.phase
      case Joining(previous) => previous
      case Starting(w) => Some(w)
      case _ => None
  }

  predicate Advances(s: State, m: Move) {
    if OfWorker(m) then Awaited(s) == Some(m.worker) else !m.Invalid? && !m.Acquire?
  }

  lemma CallerDrains(s: State, m: Move)
    requires Valid(s) && Phased(s) && Enabled(s, m) && !OfWorker(m) && !m.Invalid?
    ensures Work(Next(s, m)) < Work(s)
  {
    hide Spoken, ClosedValid, Wanted;
  }

  lemma GoalIsNearer(s: State, m: Move)
    requires Enabled(s, m) && OfWorker(m) && (s.current.Some? ==> s.current.value < |s.workers|)
    ensures Next(s, m) == Put(s, m.worker, Goal(s, m)).(trace := Next(s, m).trace)
    ensures s.workers[m.worker].stopped ==> Rank(Goal(s, m)) < Rank(s.workers[m.worker].place)
    ensures At(s, m.worker, Publishing) ==> Goal(s, m) == Announcing
    ensures !At(s, m.worker, Announcing)
  {
  }

  lemma WorkerDrains(s: State, m: Move)
    requires Owners(s) && TurnValid(s) && Phased(s) && Enabled(s, m) && OfWorker(m)
    ensures Work(Next(s, m)) <= Work(s) && (Awaited(s) == Some(m.worker) ==> Work(Next(s, m)) < Work(s))
  {
    var w, t := m.worker, Next(s, m);
    hide Enabled, Next, Goal, Rank;
    GoalIsNearer(s, m);
    match s.holder.value.phase
    case Joining(Some(v)) =>
      assert !At(s, v, Publishing) && !At(s, v, Announcing);
    case Starting(v) =>
      assert At(s, v, Publishing) || At(s, v, Announcing);
    case _ =>
  }

  /** Whoever else moves, the turn never gets longer, and every step of the caller or of the
      worker it waits for makes it shorter. */
  lemma TurnDrains(s: State, m: Move)
    requires Valid(s) && Phased(s) && Enabled(s, m)
    ensures Work(Next(s, m)) <= Work(s) && (Advances(s, m) ==> Work(Next(s, m)) < Work(s))
  {
    if OfWorker(m) { WorkerDrains(s, m); } else if !m.Invalid? { CallerDrains(s, m); }
  }

  function Following(s: State): Move
    requires Phased(s)
  {
    match s.holder.value.phase
    case Stopping => Stop
    case Joining(previous) =>
      if previous == None || At(s, previous.value, Exited) then Join(None)
      else if At(s, previous.value, Deciding) then Republish(previous.value, false, true)
      else if At(s, previous.value, Cueing) then PlayCue(previous.value, true)
      else if At(s, previous.value, Armed) then Tick(previous.value)
      else Look(previous.value)
    case Writing(rest, _) => if rest == [] then Spawn else Emit(true)
    case Starting(w) => if At(s, w, Publishing) then Publish(w, true) else Started
    case Leaving => Release
  }

  /** No deadlock: in every state of a turn some step that shortens it is possible. */
  lemma TurnNeverStuck(s: State)
    requires Valid(s) && Phased(s)
    ensures Enabled(s, Following(s)) && Advances(s, Following(s)) && Work(Next(s, Following(s))) < Work(s) <= 20
  {
    var phase := s.holder.value.phase;
    if phase.Joining? && phase.previous.Some? {
      assert !At(s, phase.previous.value, Publishing) && !At(s, phase.previous.value, Announcing);
    }
    assert Enabled(s, Following(s)) && Advances(s, Following(s)) by { hide Spoken; }
    TurnDrains(s, Following(s));
  }

  /** An invalid request changes nothing, and after shutdown no request is carried out. */
  lemma RejectedChangesNothing(s: State, c: Caller)
    requires Valid(s)
    ensures Rejected(c) ==> !Enabled(s, Acquire(c)) && Next(s, Invalid(c)) == s
    ensures !Rejected(c) && s.holder == None && s.closed && c != Shutdown ==>
      var t := Next(s, Acquire(c)); Enabled(t, Release) && Next(t, Release) == s.(turn := s.turn + 1)
  {
  }

  /** A switch edge lights a side exactly when that side's switch is on; a switch that
      cannot be read counts as it was remembered. */
  lemma SwitchesDecide(channel: Channel, on: bool, peer: Option<bool>, remembered: Side)
    ensures var wanted := Wanted(SwitchEdge(channel, on), peer, remembered);
      var other := if channel == LeftSwitch then RightSwitch else LeftSwitch;
      (Shows(wanted, channel) <==> on)
      && (Shows(wanted, other) <==> if peer.Some? then peer.value else Shows(remembered, other))
  {
  }

  function LastPublished(trace: seq<Write>): Option<Side> {
    if trace == [] then None
    else if trace[|trace| - 1].kind == Published then Some(trace[|trace| - 1].side)
    else LastPublished(trace[..|trace| - 1])
  }

  lemma {:induction false} LastPublishedSpeaks(trace: seq<Write>, t: nat, side: Side)
    requires Ordered(trace) && UpTo(trace, t, side)
    requires exists i :: 0 <= i < |trace| && trace[i].kind == Published && trace[i].turn == t
    ensures LastPublished(trace) == Some(side)
  {
    var last, front := trace[|trace| - 1], trace[..|trace| - 1];
    assert last in trace;
    var i :| 0 <= i < |trace| && trace[i].kind == Published && trace[i].turn == t;
    if last.kind == Published {
      assert trace[i].turn <= last.turn;
    } else {
      assert front[i] == trace[i];
      assert forall x | x in front :: x in trace;
      LastPublishedSpeaks(front, t, side);
    }
  }

  /** What the joins are for: whenever a worker blinks and its own publication went out, the
      last published side is the one it blinks, and the remembered one too. */
  lemma PublishedMatchesLight(s: State, w: nat)
    requires Valid(s) && s.current == Some(w)
    requires exists i :: 0 <= i < |s.trace| && s.trace[i].kind == Published && s.trace[i].turn == s.workers[w].turn
    ensures LastPublished(s.trace) == Some(s.workers[w].side) && s.remembered == s.workers[w].side
  {
    assert Live(s, w);
    LastPublishedSpeaks(s.trace, s.workers[w].turn, s.workers[w].side);
  }

  /** The rest of a turn's own writes, none of them failing. */
  function Written(s: State): State
    decreases if Enabled(s, Emit(true)) then |s.holder.value.phase.rest| else 0
  {
    if Enabled(s, Emit(true)) then Written(Emitted(s, true)) else s
  }

  /** They are the script, in order, for the side of the turn, and then the turn goes on. */
  lemma {:induction false} ScriptIsWritten(s: State)
    requires Phased(s) && s.holder.value.phase.Writing?
    ensures var t, p := Written(s), s.holder.value.phase;
      t == To(s, Writing([], p.side)).(trace := t.trace) && |t.trace| == |s.trace| + |p.rest|
      && s.trace <= t.trace
      && forall i | 0 <= i < |p.rest| :: t.trace[|s.trace| + i] == Write(s.turn, p.side, p.rest[i])
    decreases |s.holder.value.phase.rest|
  {
    if s.holder.value.phase.rest == [] {
    } else {
      ScriptIsWritten(Emitted(s, true));
    }
  }
}
