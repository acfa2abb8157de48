/** The schedule of a running blinker: cue decisions on an 800 ms grid that starts where
    the phase starts. A decision that comes too late, or whose writes outlast the interval,
    starts a new grid instead of catching up. Times are nanoseconds; every delay is free. */
module BlinkerCadence {

  const MILLISECOND := 1_000_000
  const INTERVAL := 800 * MILLISECOND
  const SLACK := 33 * MILLISECOND

  /** What ends one wait: the sampling ticker, or the cue timer `late` after it was due.
      `writing` is how long the publication and the cue take, `pause` the gap between the two
      clock readings after them, `wallStep` any jump of the wall clock meanwhile. */
  datatype Wake =
    | Tick(elapsed: nat)
    | Due(late: nat, writing: nat, pause: nat, wallStep: int)

  /** One cue decision: the instant, its grid point, the phase start it belongs to, when it was
      due, whether the writes before it had overrun, and when its own writes were done. `wall`
      is the wall-clock time of the phase start and `published` what other processes read. */
  datatype Decision = Decision(
    at: int, grid: int, phase: int, due: int, overran: bool, done: int, wall: int, published: int)
  {
    predicate OnGrid() { 0 <= at - grid <= SLACK && grid >= phase && (grid - phase) % INTERVAL == 0 && at <= done }

    predicate PhaseKnown() { -SLACK <= published - wall <= SLACK }
  }

  /** How one decision follows another. */
  predicate Follows(a: Decision, b: Decision) {
    && b.overran == (a.grid + INTERVAL <= a.done)
    && (if b.overran then b.due >= a.done + INTERVAL else b.due == a.grid + INTERVAL)
    && b.at >= b.due && b.at >= a.done
    && (if !b.overran && b.at - b.due <= SLACK
        then b.grid == b.due && b.phase == a.phase
        else b.grid == b.at && b.phase == b.at)
  }

  /** A whole schedule. The start of the worker is its first decision. */
  ghost predicate Paced(ds: seq<Decision>) {
    && ds != [] && ds[0].at == ds[0].grid == ds[0].phase
    && (forall i | 0 <= i < |ds| :: ds[i].OnGrid() && ds[i].PhaseKnown())
    && (forall i | 0 <= i < |ds| - 1 :: Follows(ds[i], ds[i + 1]))
  }

  function DueCount(wakes: seq<Wake>): nat {
    if wakes == [] then 0
    else DueCount(wakes[..|wakes| - 1]) + if wakes[|wakes| - 1].Due? then 1 else 0
  }

  lemma GridMoves(grid: int, phase: int)
    requires (grid - phase) % INTERVAL == 0
    ensures (grid + INTERVAL - phase) % INTERVAL == 0
  {
  }

  lemma PacedSnoc(ds: seq<Decision>, d: Decision)
    requires Paced(ds) && Follows(ds[|ds| - 1], d) && d.OnGrid() && d.PhaseKnown()
    ensures Paced(ds + [d])
  {
  }

  method RunBlinker(start: int, wallStart: int, startWriting: nat, startPause: nat, wakes: seq<Wake>)
    returns (decisions: seq<Decision>)
    ensures Paced(decisions) && |decisions| == 1 + DueCount(wakes) && decisions[0].at == start
  {
    // `offset` is what the wall clock is ahead of the monotonic one.
    var clock, offset := start, wallStart - start;
    var phaseStart, startNanos := clock, clock + offset;
    clock := clock + startWriting;
    decisions := [Decision(start, start, start, start, false, clock, phaseStart + offset, startNanos)];
    var nextCueAt, reanchor := phaseStart + INTERVAL, false;
    if nextCueAt <= clock {
      clock := clock + startPause;
      nextCueAt := clock + INTERVAL;
      reanchor := true;
    }
    assert Paced(decisions);
    hide Paced;
    for k := 0 to |wakes|
      invariant Paced(decisions) && |decisions| == 1 + DueCount(wakes[..k]) && decisions[0].at == start
      invariant reanchor || (nextCueAt - phaseStart) % INTERVAL == 0
      invariant var last := decisions[|decisions| - 1];
        && phaseStart == last.phase && clock >= last.done
        && reanchor == (last.grid + INTERVAL <= last.done)
        && if reanchor then nextCueAt >= last.done + INTERVAL else nextCueAt == last.grid + INTERVAL
    {
      assert wakes[..k + 1][..k] == wakes[..k];
      match wakes[k]
      case Tick(elapsed) =>
        clock := clock + elapsed;
      case Due(late, writing, pause, wallStep) =>
        offset := offset + wallStep;
        clock := (if clock > nextCueAt then clock else nextCueAt) + late;
        var now, due, overran := clock, nextCueAt, reanchor;
        if reanchor || now - nextCueAt > SLACK {
          nextCueAt, phaseStart, reanchor := now, now, true;
        }
        var phaseNanos := now + offset - (now - phaseStart);
        var wallShift := phaseNanos - startNanos;
        if reanchor || wallShift > SLACK || wallShift < -SLACK {
          startNanos := phaseNanos;
        }
        reanchor := false;
        clock := clock + writing;
        var chosen := Decision(now, nextCueAt, phaseStart, due, overran, clock, phaseStart + offset, startNanos);
        PacedSnoc(decisions, chosen);
        decisions := decisions + [chosen];
        GridMoves(nextCueAt, phaseStart);
        nextCueAt := nextCueAt + INTERVAL;
        if nextCueAt <= clock {
          clock := clock + pause;
          nextCueAt := clock + INTERVAL;
          reanchor := true;
        }
    }
    assert wakes[..|wakes|] == wakes;
  }

  /** No burst of catch-up cues: over any stretch, the decisions are on average an interval
      apart but for one slack; so two in a row are at least 767 ms apart. */
  lemma {:induction false} NeverCatchesUp(ds: seq<Decision>, i: nat, j: nat)
    requires Paced(ds) && i < j < |ds|
    ensures ds[j].grid - ds[i].grid >= (j - i) * INTERVAL
    ensures ds[j].at - ds[i].at >= (j - i) * INTERVAL - SLACK
  {
    assert Follows(ds[j - 1], ds[j]);
    if i == j - 1 {
    } else {
      NeverCatchesUp(ds, i, j - 1);
    }
    assert (j - i) * INTERVAL == (j - 1 - i) * INTERVAL + INTERVAL;
    assert ds[j - 1].OnGrid() && ds[j].OnGrid() && ds[i].OnGrid();
  }

  /** The phase moves forward only, and only when a decision was overrun or came too late. */
  lemma {:induction false} PhaseMovesForward(ds: seq<Decision>, i: nat, j: nat)
    requires Paced(ds) && i <= j < |ds|
    ensures ds[i].phase <= ds[j].phase
    ensures ds[i].phase == ds[j].phase
       <==> forall k | i < k <= j :: !ds[k].overran && ds[k].at - ds[k].due <= SLACK
  {
    if i == j {
    } else {
      PhaseMovesForward(ds, i, j - 1);
      assert Follows(ds[j - 1], ds[j]);
      assert ds[j - 1].OnGrid();
    }
  }

  /** Within one phase there is no drift: the n-th decision is n intervals on, give or take
      one slack, however many there are. */
  lemma {:induction false} NoDrift(ds: seq<Decision>, i: nat, j: nat)
    requires Paced(ds) && i <= j < |ds| && ds[i].phase == ds[j].phase
    ensures ds[j].grid == ds[i].grid + (j - i) * INTERVAL
    ensures -SLACK <= ds[j].at - ds[i].at - (j - i) * INTERVAL <= SLACK
  {
    assert ds[i].OnGrid() && ds[j].OnGrid();
    if i == j {
    } else {
      PhaseMovesForward(ds, i, j - 1);
      PhaseMovesForward(ds, j - 1, j);
      NoDrift(ds, i, j - 1);
      assert Follows(ds[j - 1], ds[j]);
      assert (j - i) * INTERVAL == (j - 1 - i) * INTERVAL + INTERVAL;
    }
  }
}
