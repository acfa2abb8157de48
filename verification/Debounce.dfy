/** One input line: raw values are fed in, wait out the line's debounce duration if it has
    one, and are reported when they differ from the last report. Timers are told apart by
    generation, because a stopped timer's callback may already be on its way. */
module Debounce {
  import opened Definition

  datatype Feed = Feed(value: bool, at: int)

  /** A timer, made for one feed. */
  datatype Timer = Timer(feed: nat, wait: nat)

  /** A report: which feed it stems from, and how long that feed was made to wait. */
  datatype Report = Report(value: bool, at: int, feed: nat, waited: nat)

  /** `key` is the cached state that others read, `seed` what was known before the first feed. */
  datatype Line = Line(
    duration: Option<nat>, seed: Option<bool>, clock: int, key: bool, fed: seq<Feed>,
    gen: nat, armed: map<nat, Timer>, reported: Option<bool>, log: seq<Report>, closed: bool)
  {
    function Raw(): Option<bool> { if fed == [] then None else Some(fed[|fed| - 1].value) }

    /** No timer of the newest generation is outstanding. */
    predicate Quiet() { gen !in armed }
  }

  function Idle(seed: Option<bool>, now: int): Line {
    Line(None, seed, now, seed == Some(true), [], 0, map[], seed, [], false)
  }

  datatype Op =
    | SetDebounce(duration: nat)
    | Edge(value: bool)
    | Repeat
    | Resync(value: bool, watched: bool)
    | DirectRead(value: bool)
    | Expire(gen: nat)
    | Cleanup

  function Reported(l: Line, feed: nat, waited: nat): Line
    requires feed < |l.fed|
  {
    var v := l.fed[feed].value;
    if l.reported == Some(v) then l
    else l.(reported := Some(v), log := l.log + [Report(v, l.clock, feed, waited)])
  }

  function DebounceInput(l: Line, value: bool): Line {
    var fed := l.(fed := l.fed + [Feed(value, l.clock)]);
    match l.duration
    case None => Reported(fed, |l.fed|, 0)
    case Some(d) => fed.(gen := l.gen + 1, armed := l.armed[l.gen + 1 := Timer(|l.fed|, d)])
  }

  /** A callback reports the last value fed, unless its generation has passed. */
  function Expired(l: Line, gen: nat): Line
    requires gen in l.armed && l.fed != []
  {
    var rest := l.(armed := l.armed - {gen});
    if gen != l.gen then rest else Reported(rest, |l.fed| - 1, l.armed[gen].wait)
  }

  function CleanedUp(l: Line): Line {
    l.(closed := true, gen := if l.duration.Some? then l.gen + 1 else l.gen)
  }

  /** A callback may run at any time once its wait is over. */
  predicate Enabled(l: Line, op: Op) {
    op.Expire? ==>
      op.gen in l.armed && l.armed[op.gen].feed < |l.fed|
      && l.fed[l.armed[op.gen].feed].at + l.armed[op.gen].wait <= l.clock
  }

  function Do(l: Line, op: Op): Line
    requires Enabled(l, op)
  {
    match op
    case SetDebounce(d) => l.(duration := Some(d))
    case Edge(v) => DebounceInput(l.(key := v), v)
    case Repeat => l.(key := true)
    case Resync(v, watched) => if watched then DebounceInput(l.(key := v), v) else l.(key := v)
    case DirectRead(v) => l.(key := v)
    case Expire(gen) => Expired(l, gen)
    case Cleanup => CleanedUp(l)
  }

  /** Time passes, then something happens. */
  function Step(l: Line, elapsed: nat, op: Op): Line {
    var later := l.(clock := l.clock + elapsed);
    if Enabled(later, op) then Do(later, op) else later
  }

  ghost predicate Ticking(fed: seq<Feed>, clock: int) {
    && (forall i, j | 0 <= i <= j < |fed| :: fed[i].at <= fed[j].at)
    && (forall i | 0 <= i < |fed| :: fed[i].at <= clock)
  }

  /** The newest timer, and only it, was made for the last feed; and with no such timer
      outstanding what was reported is what was fed last. */
  ghost predicate Settled(l: Line) {
    && (forall g | g in l.armed :: g <= l.gen && l.armed[g].feed < |l.fed|)
    && (l.gen in l.armed ==> l.armed[l.gen].feed == |l.fed| - 1)
    && (l.Quiet() && !l.closed && l.fed != [] ==> l.reported == l.Raw())
    && (l.duration == None ==> l.armed == map[])
  }

  /** What was reported had been fed, nothing else was until it was reported, and it had
      been there for as long as it had to wait. */
  ghost predicate Stable(fed: seq<Feed>, clock: int, r: Report) {
    r.feed < |fed| && r.value == fed[r.feed].value && r.at <= clock
    && fed[r.feed].at + r.waited <= r.at
    && (r.feed + 1 < |fed| ==> r.at <= fed[r.feed + 1].at)
  }

  ghost predicate Alternating(seed: Option<bool>, log: seq<Report>, reported: Option<bool>) {
    && (forall i, j | 0 <= i < j < |log| && j == i + 1 :: log[i].value != log[j].value)
    && (forall i, j | 0 <= i < j < |log| :: log[i].feed < log[j].feed)
    && (if log == [] then reported == seed
        else reported == Some(log[|log| - 1].value) && seed != Some(log[0].value))
  }

  ghost predicate Logged(fed: seq<Feed>, clock: int, log: seq<Report>) {
    Ticking(fed, clock) && forall r | r in log :: Stable(fed, clock, r)
  }

  ghost predicate Valid(l: Line) {
    Settled(l) && Logged(l.fed, l.clock, l.log) && Alternating(l.seed, l.log, l.reported)
  }

  lemma ReportStable(fed: seq<Feed>, clock: int, log: seq<Report>, wait: nat)
    requires Logged(fed, clock, log) && fed != [] && fed[|fed| - 1].at + wait <= clock
    ensures Logged(fed, clock, log + [Report(fed[|fed| - 1].value, clock, |fed| - 1, wait)])
  {
  }

  lemma ReportAlternates(
      fed: seq<Feed>, clock: int, log: seq<Report>, r: Report, seed: Option<bool>, reported: Option<bool>)
    requires Logged(fed, clock, log) && Alternating(seed, log, reported)
    requires fed != [] && r.feed == |fed| - 1 && r.value == fed[r.feed].value && reported != Some(r.value)
    ensures Alternating(seed, log + [r], Some(r.value))
  {
    if log != [] {
      var last := log[|log| - 1];
      assert Stable(fed, clock, last);
      assert last.feed < r.feed;
    }
  }

  lemma ReportKeeps(l: Line, wait: nat)
    requires Logged(l.fed, l.clock, l.log) && Alternating(l.seed, l.log, l.reported)
    requires l.fed != [] && l.fed[|l.fed| - 1].at + wait <= l.clock
    ensures var t := Reported(l, |l.fed| - 1, wait);
      Logged(t.fed, t.clock, t.log) && Alternating(t.seed, t.log, t.reported) && t.reported == l.Raw()
  {
    if l.reported != l.Raw() {
      ReportStable(l.fed, l.clock, l.log, wait);
      ReportAlternates(l.fed, l.clock, l.log, Report(l.Raw().value, l.clock, |l.fed| - 1, wait), l.seed, l.reported);
    }
  }

  lemma FeedKeeps(fed: seq<Feed>, clock: int, log: seq<Report>, v: bool)
    requires Logged(fed, clock, log)
    ensures Logged(fed + [Feed(v, clock)], clock, log)
  {
    forall r | r in log ensures Stable(fed + [Feed(v, clock)], clock, r) {
      assert Stable(fed, clock, r);
    }
  }

  lemma TimeKeeps(fed: seq<Feed>, clock: int, log: seq<Report>, elapsed: nat)
    requires Logged(fed, clock, log)
    ensures Logged(fed, clock + elapsed, log)
  {
    forall r | r in log ensures Stable(fed, clock + elapsed, r) {
      assert Stable(fed, clock, r);
    }
  }

  /** One more feed, on a line that arms a timer for it ... */
  lemma ArmingKeepsValid(l: Line, t: Line, wait: nat)
    requires Valid(l) && |t.fed| == |l.fed| + 1 && Logged(t.fed, l.clock, l.log)
    requires t == l.(fed := t.fed, gen := l.gen + 1, armed := l.armed[l.gen + 1 := Timer(|l.fed|, wait)])
    requires l.duration.Some?
    ensures Valid(t)
  {
  }

  /** ... and on one that reports at once. */
  lemma DirectKeepsValid(l: Line, t: Line)
    requires Valid(l) && |t.fed| == |l.fed| + 1 && Logged(t.fed, l.clock, l.log)
    requires t == l.(fed := t.fed) && l.duration == None && t.fed[|l.fed|].at <= l.clock
    ensures Valid(Reported(t, |l.fed|, 0))
  {
    ReportKeeps(t, 0);
  }

  lemma DebounceInputKeepsValid(l: Line, v: bool)
    requires Valid(l)
    ensures Valid(DebounceInput(l, v))
  {
    FeedKeeps(l.fed, l.clock, l.log, v);
    if l.duration == None { DirectKeepsValid(l, l.(fed := l.fed + [Feed(v, l.clock)])); }
    else { ArmingKeepsValid(l, DebounceInput(l, v), l.duration.value); }
  }

  lemma ExpiredKeepsValid(l: Line, gen: nat)
    requires Valid(l) && Enabled(l, Expire(gen))
    ensures Valid(Expired(l, gen))
  {
    hide Logged, Alternating;
    if gen == l.gen { ReportKeeps(l.(armed := l.armed - {gen}), l.armed[gen].wait); }
  }

  lemma TimeKeepsValid(l: Line, elapsed: nat)
    requires Valid(l)
    ensures Valid(l.(clock := l.clock + elapsed))
  {
    TimeKeeps(l.fed, l.clock, l.log, elapsed);
  }

  lemma DoKeepsValid(l: Line, op: Op)
    requires Valid(l) && Enabled(l, op)
    ensures Valid(Do(l, op))
  {
    hide Logged, Alternating, DebounceInput, Expired;
    match op
    case Edge(v) => DebounceInputKeepsValid(l.(key := v), v);
    case Resync(v, watched) => if watched { DebounceInputKeepsValid(l.(key := v), v); }
    case Expire(gen) => ExpiredKeepsValid(l, gen);
    case _ =>
  }

  lemma StepKeepsValid(l: Line, elapsed: nat, op: Op)
    requires Valid(l)
    ensures Valid(Step(l, elapsed, op))
  {
    hide Valid, Do;
    TimeKeepsValid(l, elapsed);
    if Enabled(l.(clock := l.clock + elapsed), op) { DoKeepsValid(l.(clock := l.clock + elapsed), op); }
  }

  function Run(l: Line, ops: seq<(nat, Op)>): Line {
    if ops == [] then l
    else var (elapsed, op) := ops[|ops| - 1]; Step(Run(l, ops[..|ops| - 1]), elapsed, op)
  }

  lemma {:induction false} RunKeepsValid(l: Line, ops: seq<(nat, Op)>)
    requires Valid(l)
    ensures Valid(Run(l, ops))
  {
    if ops == [] {
    } else {
      var front := ops[..|ops| - 1];
      var (elapsed, op) := ops[|ops| - 1];
      RunKeepsValid(l, front);
      StepKeepsValid(Run(l, front), elapsed, op);
    }
  }

  lemma StepKeepsSeed(l: Line, elapsed: nat, op: Op)
    ensures Step(l, elapsed, op).seed == l.seed && Step(l, elapsed, op).gen >= l.gen
  {
  }

  lemma {:induction false} RunKeepsSeed(l: Line, ops: seq<(nat, Op)>)
    ensures Run(l, ops).seed == l.seed && Run(l, ops).gen >= l.gen
  {
    hide Step;
    if ops == [] {
    } else {
      var front := ops[..|ops| - 1];
      RunKeepsSeed(l, front);
      StepKeepsSeed(Run(l, front), ops[|ops| - 1].0, ops[|ops| - 1].1);
    }
  }

  /** Over every run: reports alternate, starting with a value other than the seed; each is
      the last value fed at that time, unchanged for the full wait; and when no newest timer
      is outstanding, what was reported is what was fed last. */
  lemma {:induction false} RunReports(seed: Option<bool>, now: int, ops: seq<(nat, Op)>)
    ensures var t := Run(Idle(seed, now), ops);
      && (forall i | 0 <= i < |t.log| - 1 :: t.log[i].value != t.log[i + 1].value)
      && (t.log != [] ==> seed != Some(t.log[0].value))
      && (forall r | r in t.log :: Stable(t.fed, t.clock, r))
      && (t.Quiet() && !t.closed && t.fed != [] ==> t.reported == t.Raw())
  {
    RunKeepsSeed(Idle(seed, now), ops);
    RunKeepsValid(Idle(seed, now), ops);
  }

  /** Two reports are at least the later one's wait apart. */
  lemma ReportsAreSpaced(l: Line, i: nat)
    requires Valid(l) && i + 1 < |l.log|
    ensures l.log[i].at + l.log[i + 1].waited <= l.log[i + 1].at
  {
    assert Stable(l.fed, l.clock, l.log[i]) && Stable(l.fed, l.clock, l.log[i + 1]);
    assert l.fed[l.log[i].feed + 1].at <= l.fed[l.log[i + 1].feed].at;
  }

  /** Only the newest generation's timer reports anything. */
  lemma StaleTimersAreInert(l: Line, elapsed: nat, gen: nat)
    requires Valid(l) && gen != l.gen
    ensures var t := Step(l, elapsed, Expire(gen));
      t.log == l.log && t.reported == l.reported && t.fed == l.fed && t.gen == l.gen
  {
  }

  /** A timer armed before a cleanup reports nothing after it, whatever happens between ... */
  lemma {:induction false} CleanupDisarms(l: Line, elapsed: nat, ops: seq<(nat, Op)>, later: nat, gen: nat)
    requires Valid(l) && gen in l.armed
    ensures var t := Run(Step(l, elapsed, Cleanup), ops); Step(t, later, Expire(gen)).log == t.log
  {
    var cleaned := Step(l, elapsed, Cleanup);
    StepKeepsValid(l, elapsed, Cleanup);
    RunKeepsValid(cleaned, ops);
    RunKeepsSeed(cleaned, ops);
    StaleTimersAreInert(Run(cleaned, ops), later, gen);
  }

  lemma QuietStep(l: Line, elapsed: nat, op: Op)
    requires Settled(l) && (l.Quiet() || op.Cleanup?) && !op.Edge? && !op.Resync?
    ensures Step(l, elapsed, op).log == l.log && Step(l, elapsed, op).Quiet()
  {
  }

  /** ... and a line that is no longer fed reports nothing at all. */
  lemma {:induction false} CleanupSilences(l: Line, elapsed: nat, ops: seq<(nat, Op)>)
    requires Valid(l) && forall i | 0 <= i < |ops| :: !ops[i].1.Edge? && !ops[i].1.Resync?
    ensures var t := Run(Step(l, elapsed, Cleanup), ops); t.log == l.log && t.Quiet()
  {
    hide Step, Settled, Logged, Alternating;
    StepKeepsValid(l, elapsed, Cleanup);
    if ops == [] {
      QuietStep(l, elapsed, Cleanup);
    } else {
      var front, last := ops[..|ops| - 1], ops[|ops| - 1];
      CleanupSilences(l, elapsed, front);
      RunKeepsValid(Step(l, elapsed, Cleanup), front);
      QuietStep(Run(Step(l, elapsed, Cleanup), front), last.0, last.1);
    }
  }

  ghost predicate KeyIsRaw(l: Line) { l.fed != [] ==> l.Raw() == Some(l.key) }

  /** The cached key is set past the feed to another value than it had. */
  predicate Sidesteps(l: Line, op: Op) {
    match op
    case Repeat => !l.key
    case Resync(v, watched) => !watched && v != l.key
    case DirectRead(v) => v != l.key
    case _ => false
  }

  /** The cached key and the last fed value part only when a key repeat arrives for a key
      whose press was missed, when a resync finds a change on a line nobody watches, or when
      a direct read of the sensor finds a change that has not been reported as an event. */
  lemma KeyPartsFromRaw(l: Line, elapsed: nat, op: Op)
    requires KeyIsRaw(l)
    ensures KeyIsRaw(Step(l, elapsed, op)) <==> l.fed == [] || !Sidesteps(l, op)
  {
  }

  lemma ResyncFeeds(l: Line, elapsed: nat, v: bool)
    requires Settled(l)
    ensures var t := Step(l, elapsed, Resync(v, true));
      t.key == v && t.Raw() == Some(v) && t.fed[|t.fed| - 1].at == t.clock
      && (l.duration == None ==> t.armed == map[] && t.reported == Some(v))
      && (l.duration.Some? ==> t.gen in t.armed && t.armed[t.gen] == Timer(|t.fed| - 1, l.duration.value))
  {
  }

  /** A resync of a watched line repairs it: once its timer has run, key, fed and reported
      value agree with what the kernel said. */
  lemma ResyncRepairs(l: Line, elapsed: nat, v: bool, wait: nat)
    requires Settled(l) && (l.duration.Some? ==> wait >= l.duration.value)
    ensures var fed := Step(l, elapsed, Resync(v, true)); var t := Step(fed, wait, Expire(fed.gen));
      t.key == v && t.Raw() == Some(v) && t.reported == Some(v)
  {
    ResyncFeeds(l, elapsed, v);
    var fed := Step(l, elapsed, Resync(v, true));
    hide DebounceInput, Settled;
    assert Step(fed, wait, Expire(fed.gen)).key == v;
  }
}
