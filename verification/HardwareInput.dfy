/** The input side of the hardware layer: maps keyed by channel, updated in place by key
    events, timer callbacks, resyncs and cleanup. Every operation changes a channel's entry
    in the maps as a `Debounce` line changes. A channel is named by its key code. */
module HardwareInput {
  import opened Definition
  import D = Debounce

  type Code = nat

  /** brake_right, brake_left, horn_button, seatbox_button, kickstand, blinker_right,
      blinker_left, ecu_power, di2_0, seatbox_lock_sensor, handlebar_lock_sensor,
      handlebar_position, external_charger, 48v_detect */
  const KEYCODES: set<Code> := {30, 48, 46, 32, 18, 33, 34, 35, 23, 36, 37, 38, 24, 16}

  /** What the maps hold about one channel. */
  datatype Entry = Entry(duration: Option<nat>, gen: nat, reported: Option<bool>, key: bool, last: Option<bool>)

  function Lookup<T>(m: map<Code, T>, c: Code): Option<T> {
    if c in m then Some(m[c]) else None
  }

  function Fed(e: Entry, value: bool): Entry {
    if e.duration == None then e.(reported := Some(value)) else e.(last := Some(value), gen := e.gen + 1)
  }

  function Fired(e: Entry, gen: nat): Entry {
    if gen != e.gen then e else e.(reported := Some(e.last == Some(true)))
  }

  function After(e: Entry, op: D.Op): Entry {
    match op
    case SetDebounce(d) => e.(duration := Some(d))
    case Edge(v) => Fed(e.(key := v), v)
    case Repeat => e.(key := true)
    case Resync(v, watched) => if watched then Fed(e.(key := v), v) else e.(key := v)
    case DirectRead(v) => e.(key := v)
    case Expire(gen) => Fired(e, gen)
    case Cleanup => if e.duration.Some? then e.(gen := e.gen + 1) else e
  }

  /** The value a callback gets for a change of its channel's entry, if it gets one. */
  function News(before: Entry, after: Entry, watched: bool): seq<bool> {
    if watched && after.reported.Some? && after.reported != before.reported then [after.reported.value] else []
  }

  function Calls(c: Code, before: Entry, after: Entry, watched: bool): seq<(Code, bool)> {
    var news := News(before, after, watched);
    if news == [] then [] else [(c, news[0])]
  }

  /** The values that one channel's callback was invoked with. */
  function Of(calls: seq<(Code, bool)>, c: Code): seq<bool> {
    if calls == [] then []
    else
      var last := calls[|calls| - 1];
      Of(calls[..|calls| - 1], c) + if last.0 == c then [last.1] else []
  }

  lemma {:induction false} OfCalls(
      calls: seq<(Code, bool)>, c: Code, before: Entry, after: Entry, watched: bool, d: Code)
    ensures Of(calls + Calls(c, before, after, watched), d)
         == Of(calls, d) + if d == c then News(before, after, watched) else []
  {
    var more := Calls(c, before, after, watched);
    if more == [] {
      assert calls + more == calls;
    } else {
      assert (calls + more)[..|calls|] == calls;
    }
  }

  class LinuxHardwareIO {
    const inputCallbacks: set<Code>
    var activeKeys: map<Code, bool>
    var debounceDurations: map<Code, nat>
    var debounceTimers: map<Code, nat>
    var debounceLast: map<Code, bool>
    var debounceGen: map<Code, nat>
    var lastReported: map<Code, bool>
    ghost var calls: seq<(Code, bool)>

    function Gen(c: Code): nat
      reads this
    {
      if c in debounceGen then debounceGen[c] else 0
    }

    predicate Active(c: Code)
      reads this
    {
      c in activeKeys && activeKeys[c]
    }

    function EntryOf(c: Code): Entry
      reads this
    {
      Entry(Lookup(debounceDurations, c), Gen(c), Lookup(lastReported, c), Active(c), Lookup(debounceLast, c))
    }

    /** `readInitialState`: if the kernel's state can be read it is known and counts as
        reported, otherwise nothing is. */
    constructor (pressed: Option<set<Code>>, callbacks: set<Code>)
      ensures calls == [] && inputCallbacks == callbacks
      ensures forall c | c in KEYCODES ::
        EntryOf(c) == if pressed == None then Entry(None, 0, None, false, None)
                      else Entry(None, 0, Some(c in pressed.value), c in pressed.value, None)
    {
      inputCallbacks, calls := callbacks, [];
      activeKeys := if pressed == None then map[] else map c | c in KEYCODES :: c in pressed.value;
      lastReported := if pressed == None then map[] else map c | c in KEYCODES :: c in pressed.value;
      debounceDurations, debounceTimers, debounceLast, debounceGen := map[], map[], map[], map[];
    }

    method SetDebounce(c: Code, duration: nat)
      modifies this`debounceDurations
      ensures EntryOf(c) == After(old(EntryOf(c)), D.SetDebounce(duration))
      ensures forall d | d != c :: EntryOf(d) == old(EntryOf(d))
    {
      debounceDurations := debounceDurations[c := duration];
    }

    /** Reports a value unless it is what was reported last. */
    method Deliver(c: Code, value: bool)
      modifies this`lastReported, this`calls
      ensures EntryOf(c) == old(EntryOf(c)).(reported := Some(value))
      ensures forall d | d != c :: EntryOf(d) == old(EntryOf(d))
      ensures calls == old(calls) + Calls(c, old(EntryOf(c)), EntryOf(c), c in inputCallbacks)
    {
      if c in lastReported && lastReported[c] == value { return; }
      lastReported := lastReported[c := value];
      if c in inputCallbacks { calls := calls + [(c, value)]; }
    }

    method DebounceInput(c: Code, value: bool)
      modifies this`debounceLast, this`debounceGen, this`debounceTimers, this`lastReported, this`calls
      ensures EntryOf(c) == Fed(old(EntryOf(c)), value)
      ensures forall d | d != c :: EntryOf(d) == old(EntryOf(d))
      ensures calls == old(calls) + Calls(c, old(EntryOf(c)), EntryOf(c), c in inputCallbacks)
    {
      if c !in debounceDurations {
        Deliver(c, value);
        return;
      }
      debounceLast := debounceLast[c := value];
      debounceGen := debounceGen[c := Gen(c) + 1];
      debounceTimers := debounceTimers[c := debounceGen[c]];
    }

    /** The callback of the timer armed as generation `gen`. */
    method TimerFires(c: Code, gen: nat)
      modifies this`lastReported, this`calls
      ensures EntryOf(c) == After(old(EntryOf(c)), D.Expire(gen))
      ensures forall d | d != c :: EntryOf(d) == old(EntryOf(d))
      ensures calls == old(calls) + Calls(c, old(EntryOf(c)), EntryOf(c), c in inputCallbacks)
    {
      if Gen(c) != gen { return; }
      var settled := c in debounceLast && debounceLast[c];
      Deliver(c, settled);
    }

    /** Values above one are key repeats: they refresh the cached state and nothing else. */
    method HandleKeyEvent(c: Code, value: nat)
      modifies this
      ensures Active(c) == (value != 0)
      ensures c in KEYCODES ==> EntryOf(c) == After(old(EntryOf(c)), if value > 1 then D.Repeat else D.Edge(value == 1))
      ensures forall d | d != c :: EntryOf(d) == old(EntryOf(d))
      ensures calls == old(calls)
        + if c in KEYCODES then Calls(c, old(EntryOf(c)), EntryOf(c), c in inputCallbacks) else []
    {
      if value == 0 { activeKeys := activeKeys - {c}; } else { activeKeys := activeKeys[c := true]; }
      if value > 1 || c !in KEYCODES { return; }
      DebounceInput(c, value == 1);
    }

    /** What a resync found on one watched channel. */
    method Dispatch(c: Code, value: bool)
      requires c in inputCallbacks
      modifies this`debounceLast, this`debounceGen, this`debounceTimers, this`lastReported, this`calls
      ensures EntryOf(c) == Fed(old(EntryOf(c)), value) && forall d | d != c :: EntryOf(d) == old(EntryOf(d))
      ensures Of(calls, c) == Of(old(calls), c) + News(old(EntryOf(c)), EntryOf(c), true)
      ensures forall d | d != c :: Of(calls, d) == Of(old(calls), d)
    {
      ghost var before, was := EntryOf(c), calls;
      DebounceInput(c, value);
      forall d { OfCalls(was, c, before, EntryOf(c), true, d); }
    }

    method DispatchAll(pending: set<Code>, pressed: set<Code>)
      requires pending <= inputCallbacks
      modifies this`debounceLast, this`debounceGen, this`debounceTimers, this`lastReported, this`calls
      ensures forall c | c in pending :: EntryOf(c) == Fed(old(EntryOf(c)), c in pressed)
      ensures forall c | c in pending :: Of(calls, c) == Of(old(calls), c) + News(old(EntryOf(c)), EntryOf(c), true)
      ensures forall c | c !in pending :: EntryOf(c) == old(EntryOf(c)) && Of(calls, c) == Of(old(calls), c)
    {
      var todo := pending;
      while todo != {}
        invariant todo <= pending
        invariant forall c | c in pending - todo :: EntryOf(c) == Fed(old(EntryOf(c)), c in pressed)
        invariant forall c | c in pending - todo ::
          Of(calls, c) == Of(old(calls), c) + News(old(EntryOf(c)), EntryOf(c), true)
        invariant forall c | c !in pending - todo :: EntryOf(c) == old(EntryOf(c)) && Of(calls, c) == Of(old(calls), c)
        decreases todo
      {
        var c :| c in todo;
        todo := todo - {c};
        Dispatch(c, c in pressed);
      }
    }

    method CacheKeys(keycodes: set<Code>, pressed: set<Code>) returns (pending: set<Code>)
      modifies this`activeKeys
      ensures pending == keycodes * inputCallbacks
      ensures forall c :: EntryOf(c) == if c in keycodes then old(EntryOf(c)).(key := c in pressed) else old(EntryOf(c))
    {
      var todo := keycodes;
      pending := {};
      while todo != {}
        invariant todo <= keycodes && pending == (keycodes - todo) * inputCallbacks
        invariant forall c :: Active(c) == if c in keycodes - todo then c in pressed else old(Active(c))
        decreases todo
      {
        var c :| c in todo;
        todo := todo - {c};
        activeKeys := if c in pressed then activeKeys[c := true] else activeKeys - {c};
        if c in inputCallbacks { pending := pending + {c}; }
      }
    }

    /** Every known key is re-read; watched channels go through the debounce again, and their
        callbacks hear of it exactly when the report changes. */
    method ResyncInputs(pressed: set<Code>)
      modifies this
      ensures forall c | c in KEYCODES ::
        EntryOf(c) == After(old(EntryOf(c)), D.Resync(c in pressed, c in inputCallbacks))
      ensures forall c | c in KEYCODES ::
        Of(calls, c) == Of(old(calls), c) + News(old(EntryOf(c)), EntryOf(c), c in inputCallbacks)
      ensures forall c | c !in KEYCODES :: EntryOf(c) == old(EntryOf(c)) && Of(calls, c) == Of(old(calls), c)
    {
      hide EntryOf, Fed, Of;
      var keycodes := KEYCODES;
      var pending := CacheKeys(keycodes, pressed);
      DispatchAll(pending, pressed);
    }

    /** Asks the kernel for one channel, past the cache; what it says replaces the cached
        state and is reported to nobody. */
    method ReadDigitalInputDirect(c: Code, pressed: bool, ok: bool) returns (state: Option<bool>)
      modifies this`activeKeys
      ensures state == if c in KEYCODES && ok then Some(pressed) else None
      ensures EntryOf(c) == if state.Some? then After(old(EntryOf(c)), D.DirectRead(pressed)) else old(EntryOf(c))
      ensures forall d | d != c :: EntryOf(d) == old(EntryOf(d))
    {
      if c !in KEYCODES || !ok { return None; }
      activeKeys := activeKeys[c := pressed];
      state := Some(pressed);
    }

    /** Pending timers are stopped and every debounced channel moves to a new generation, so
        that a callback already on its way finds its own out of date. */
    method Cleanup()
      modifies this`debounceTimers, this`debounceGen
      ensures debounceTimers == map[] && forall c :: EntryOf(c) == After(old(EntryOf(c)), D.Cleanup)
    {
      debounceTimers := map[];
      var todo := debounceDurations.Keys;
      while todo != {}
        invariant todo <= debounceDurations.Keys && debounceTimers == map[]
        invariant forall c :: EntryOf(c) == if c in todo then old(EntryOf(c)) else After(old(EntryOf(c)), D.Cleanup)
        decreases todo
      {
        var c :| c in todo;
        todo := todo - {c};
        debounceGen := debounceGen[c := Gen(c) + 1];
      }
    }
  }

  /** The entry of a channel stands for a line. */
  ghost predicate Fits(e: Entry, l: D.Line) {
    && e.duration == l.duration && e.gen == l.gen && e.reported == l.reported && e.key == l.key
    && (l.gen in l.armed ==> e.last == l.Raw())
  }

  /** A line logs a report exactly when its callback is told, and the value it is told. */
  ghost predicate Heard(c: Code, e: Entry, after: Entry, l: D.Line, t: D.Line) {
    && (t.log != l.log <==> Calls(c, e, after, true) != [])
    && (t.log != l.log ==> |l.log| < |t.log| && Calls(c, e, after, true) == [(c, t.log[|l.log|].value)])
  }

  lemma FedFits(e: Entry, l: D.Line, v: bool, c: Code)
    requires Fits(e, l) && D.Settled(l)
    ensures var after, t := Fed(e.(key := v), v), D.DebounceInput(l.(key := v), v);
      Fits(after, t) && Heard(c, e, after, l, t)
  {
  }

  lemma FiredFits(e: Entry, l: D.Line, gen: nat, c: Code)
    requires Fits(e, l) && gen in l.armed && l.fed != []
    ensures Fits(Fired(e, gen), D.Expired(l, gen)) && Heard(c, e, Fired(e, gen), l, D.Expired(l, gen))
  {
  }

  /** Whatever happens to a line, its entry follows, and a callback is invoked exactly when
      the line logs a report. */
  lemma AfterFits(e: Entry, l: D.Line, op: D.Op, c: Code)
    requires Fits(e, l) && D.Settled(l) && D.Enabled(l, op)
    ensures Fits(After(e, op), D.Do(l, op))
    ensures D.Do(l, op).log != l.log <==> Calls(c, e, After(e, op), true) != []
    ensures D.Do(l, op).log != l.log ==>
      Calls(c, e, After(e, op), true) == [(c, D.Do(l, op).log[|l.log|].value)]
  {
    assert op.Expire? ==> l.fed != [];
    hide Fed, Fired, D.DebounceInput, D.Expired, D.Settled;
    match op
    case Edge(v) => FedFits(e, l, v, c);
    case Resync(v, watched) => if watched { FedFits(e, l, v, c); }
    case Expire(gen) => FiredFits(e, l, gen, c);
    case _ =>
  }

  /** The same, after some time; a callback that is not due does not run. */
  function Next(e: Entry, l: D.Line, elapsed: nat, op: D.Op): Entry {
    if D.Enabled(l.(clock := l.clock + elapsed), op) then After(e, op) else e
  }

  lemma NextFits(e: Entry, l: D.Line, elapsed: nat, op: D.Op)
    requires Fits(e, l) && D.Settled(l)
    ensures Fits(Next(e, l, elapsed, op), D.Step(l, elapsed, op))
  {
    hide After, D.Do;
    var later := l.(clock := l.clock + elapsed);
    if D.Enabled(later, op) { AfterFits(e, later, op, 0); }
  }

  /** The entry at the end of a timed run of its line. */
  function Follow(e: Entry, l: D.Line, ops: seq<(nat, D.Op)>): Entry {
    if ops == [] then e
    else
      var front, last := ops[..|ops| - 1], ops[|ops| - 1];
      Next(Follow(e, l, front), D.Run(l, front), last.0, last.1)
  }

  /** So what `Debounce` proves of every run holds of the maps. */
  lemma {:induction false} RunFits(e: Entry, l: D.Line, ops: seq<(nat, D.Op)>)
    requires Fits(e, l) && D.Valid(l)
    ensures Fits(Follow(e, l, ops), D.Run(l, ops))
  {
    if ops == [] {
    } else {
      var front, last := ops[..|ops| - 1], ops[|ops| - 1];
      RunFits(e, l, front);
      D.RunKeepsValid(l, front);
      NextFits(Follow(e, l, front), D.Run(l, front), last.0, last.1);
    }
  }

  /** In particular, with no newest timer outstanding `lastReported` holds the last value fed. */
  lemma {:induction false} MapsSettle(seed: Option<bool>, now: int, ops: seq<(nat, D.Op)>)
    ensures var line := D.Run(D.Idle(seed, now), ops);
      var e := Follow(Entry(None, 0, seed, seed == Some(true), None), D.Idle(seed, now), ops);
      line.Quiet() && !line.closed && line.fed != [] ==> e.reported == line.Raw()
  {
    D.RunReports(seed, now, ops);
    RunFits(Entry(None, 0, seed, seed == Some(true), None), D.Idle(seed, now), ops);
  }
}
