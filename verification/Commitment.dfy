/** A shutdown that has told the dashboard computer to halt cannot be turned around: an
    unlock that arrives then is queued and replayed from stand-by. */
module Commitment {
  import opened Definition

  function Answered(replays: seq<nat>): set<nat> { set r | r in replays }

  /** `visit` numbers the visits to shutting-down; `deferredIn` and `replays` record in
      which visits an unlock was queued and for which one a replay was dispatched. */
  datatype Commitment = Commitment(
    sent: bool, pending: bool, visit: nat, deferredIn: set<nat>, replays: seq<nat>)
  {
    ghost predicate Valid(st: State) {
      && (sent ==> st == ShuttingDown)
      && (pending ==> sent)
      && (forall i, j | 0 <= i < j < |replays| :: replays[i] < replays[j])
      && (forall r | r in replays :: r <= visit)
      && (st == ShuttingDown ==> visit !in replays)
      && deferredIn == Answered(replays) + (if pending then {visit} else {})
    }
  }

  const FRESH := Commitment(false, false, 0, {}, [])

  function EnterShuttingDown(c: Commitment, published: bool): Commitment {
    c.(sent := published, pending := false, visit := c.visit + 1)
  }

  function EnterStandby(c: Commitment): Commitment {
    c.(sent := false, pending := false, replays := if c.pending then c.replays + [c.visit] else c.replays)
  }

  function Defer(c: Commitment): Commitment {
    c.(pending := true, deferredIn := c.deferredIn + {c.visit})
  }

  lemma ShuttingDownKeeps(c: Commitment, st: State, published: bool)
    requires c.Valid(st) && st != ShuttingDown
    ensures EnterShuttingDown(c, published).Valid(ShuttingDown)
  {
  }

  lemma StandbyKeeps(c: Commitment, st: State)
    requires c.Valid(st) && st == ShuttingDown
    ensures EnterStandby(c).Valid(Standby)
    ensures |EnterStandby(c).replays| == |c.replays| + if c.pending then 1 else 0
  {
    var after := EnterStandby(c);
    assert forall i | 0 <= i < |c.replays| :: c.replays[i] in c.replays;
    forall r | r in after.replays ensures r <= after.visit {
      if r !in c.replays { assert r == c.visit; }
    }
    assert Answered(after.replays) == Answered(c.replays) + (if c.pending then {c.visit} else {});
  }

  lemma DeferKeeps(c: Commitment, st: State)
    requires c.Valid(st) && c.sent
    ensures Defer(c).Valid(st)
  {
  }

  lemma AnsweredSnoc(s: seq<nat>, r: nat)
    ensures Answered(s + [r]) == Answered(s) + {r}
  {
  }

  lemma {:induction false} DistinctCount(s: seq<nat>)
    requires forall i, j | 0 <= i < j < |s| :: s[i] < s[j]
    ensures |Answered(s)| == |s|
  {
    if s == [] {
    } else {
      var front, last := s[..|s| - 1], s[|s| - 1];
      DistinctCount(front);
      AnsweredSnoc(front, last);
      assert s == front + [last];
      assert last !in front by {
        assert forall i | 0 <= i < |front| :: s[i] < s[|s| - 1];
      }
    }
  }

  /** Each deferring visit is answered once: as many visits queued an unlock as replays
      were dispatched, plus the one still waiting. */
  lemma {:induction false} OneReplayPerVisit(c: Commitment, st: State)
    requires c.Valid(st)
    ensures |c.deferredIn| == |c.replays| + if c.pending then 1 else 0
  {
    DistinctCount(c.replays);
  }
}
