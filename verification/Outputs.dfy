/** The three tracked output lines, what is published about them and their faults.
    An entry action is described by the GPIO writes it makes, in order; `Settle` says
    what must hold once its reporting has joined. */
module Outputs {
  import opened Definition

  datatype Channel = EnginePower | DashboardPower | EngineBrake

  /** `failed` remembers whether the latest write failed; `fault` is the published code. */
  datatype Line = Line(level: bool, failed: bool, fault: bool)

  datatype Outputs = Outputs(
    engine: Line, dash: Line, brake: Line,
    enginePublished: bool, dashPublished: bool,
    ecuHeld: bool)
  {
    function At(ch: Channel): Line {
      match ch
      case EnginePower => engine
      case DashboardPower => dash
      case EngineBrake => brake
    }

    /** The motor cannot turn: brake line engaged, or the controller is dark. */
    ghost predicate Interlock() { brake.level || !engine.level }

    ghost predicate EngineTold() { enginePublished == engine.level }

    ghost predicate DashTold() { dashPublished == dash.level }

    ghost predicate FaultsTold() {
      && engine.fault == engine.failed && dash.fault == dash.failed && brake.fault == brake.failed
      && (ecuHeld ==> !engine.level)
    }

    /** Redis and the fault set describe the lines. */
    ghost predicate Consistent() { EngineTold() && DashTold() && FaultsTold() }
  }

  const OFF := Line(false, false, false)

  const ALL_OFF := Outputs(OFF, OFF, OFF, false, false, false)

  datatype Write = Write(ch: Channel, value: bool, ok: bool)

  /** Whether each possible write of one entry action succeeds. */
  datatype Wires = Wires(brakeOk: bool, engineOnOk: bool, engineOffOk: bool, dashOnOk: bool, dashOffOk: bool)

  function LastWrite(ws: seq<Write>, ch: Channel): Option<Write> {
    if ws == [] then None
    else if ws[|ws| - 1].ch == ch then Some(ws[|ws| - 1])
    else LastWrite(ws[..|ws| - 1], ch)
  }

  function LastGood(ws: seq<Write>, ch: Channel): Option<Write> {
    if ws == [] then None
    else if ws[|ws| - 1].ch == ch && ws[|ws| - 1].ok then Some(ws[|ws| - 1])
    else LastGood(ws[..|ws| - 1], ch)
  }

  function SettleLine(l: Line, ws: seq<Write>, ch: Channel): Line {
    var good, latest := LastGood(ws, ch), LastWrite(ws, ch);
    Line(if good.Some? then good.value.value else l.level,
         if latest.Some? then !latest.value.ok else l.failed,
         if latest.Some? then !latest.value.ok else l.fault)
  }

  /** After the join: a line holds the last value written successfully and that value is
      published, a fault stands exactly when the latest write failed, and the controller
      counts as held dark until its line was last driven high. */
  function Settle(o: Outputs, ws: seq<Write>): Outputs {
    var e, d := LastGood(ws, EnginePower), LastGood(ws, DashboardPower);
    Outputs(
      SettleLine(o.engine, ws, EnginePower),
      SettleLine(o.dash, ws, DashboardPower),
      SettleLine(o.brake, ws, EngineBrake),
      if e.Some? then e.value.value else o.enginePublished,
      if d.Some? then d.value.value else o.dashPublished,
      o.ecuHeld && !(e.Some? && e.value.value))
  }

  /** One write whose reporting is not deferred. */
  function Put(o: Outputs, w: Write): Outputs {
    match w.ch
    case EnginePower => o.(
      engine := Line(if w.ok then w.value else o.engine.level, !w.ok, !w.ok),
      enginePublished := if w.ok then w.value else o.enginePublished,
      ecuHeld := o.ecuHeld && !(w.ok && w.value))
    case DashboardPower => o.(
      dash := Line(if w.ok then w.value else o.dash.level, !w.ok, !w.ok),
      dashPublished := if w.ok then w.value else o.dashPublished)
    case EngineBrake => o.(brake := Line(if w.ok then w.value else o.brake.level, !w.ok, !w.ok))
  }

  function Immediate(o: Outputs, ws: seq<Write>): Outputs {
    if ws == [] then o else Put(Immediate(o, ws[..|ws| - 1]), ws[|ws| - 1])
  }

  /** The brake first, and power only behind a confirmed brake. */
  function ParkedWrites(w: Wires): seq<Write> {
    (if w.brakeOk then [Write(EngineBrake, true, true), Write(EnginePower, true, w.engineOnOk)]
     else [Write(EngineBrake, true, false), Write(EnginePower, false, w.engineOffOk)])
    + [Write(DashboardPower, true, w.dashOnOk)]
  }

  /** Power, then the dashboard, then the recheck, and the brake last. */
  function DriveWrites(w: Wires, recheck: bool, levers: bool): seq<Write> {
    [Write(EnginePower, true, w.engineOnOk), Write(DashboardPower, true, w.dashOnOk)]
    + (if !w.dashOnOk then [Write(EnginePower, false, w.engineOffOk)]
       else if recheck then [Write(EngineBrake, levers, w.brakeOk)]
       else [Write(EngineBrake, true, w.brakeOk)]
            + (if w.brakeOk then [] else [Write(EnginePower, false, w.engineOffOk)]))
  }

  function EnterParked(o: Outputs, w: Wires): Outputs {
    var settled := Settle(o, ParkedWrites(w));
    if w.brakeOk then settled else settled.(ecuHeld := true)
  }

  function EnterReadyToDrive(o: Outputs, w: Wires, recheck: bool, levers: bool): Outputs {
    Settle(o, DriveWrites(w, recheck, levers))
  }

  function EnterShuttingDown(o: Outputs, w: Wires): Outputs { Settle(o, [Write(EnginePower, false, w.engineOffOk)]) }

  function CutDashboard(o: Outputs, w: Wires): Outputs { Settle(o, [Write(DashboardPower, false, w.dashOffOk)]) }

  function PowerDashboard(o: Outputs, w: Wires): Outputs { Settle(o, [Write(DashboardPower, true, w.dashOnOk)]) }

  /** A lever edge: the brake follows the levers in drive and stays engaged elsewhere. */
  function BrakeEdge(o: Outputs, seen: SystemState, levers: bool, ok: bool): Outputs {
    Settle(o, [Write(EngineBrake, if seen == ShownReadyToDrive then levers else true, ok)])
  }

  /** One more write settled on top of `before`, the outputs having started as `o`. */
  function Then(o: Outputs, before: Outputs, w: Write): Outputs {
    Put(before, w).(ecuHeld := if w.ch == EnginePower && w.ok then o.ecuHeld && !w.value else before.ecuHeld)
  }

  lemma {:induction false} LastSnoc(ws: seq<Write>, w: Write, ch: Channel)
    ensures LastWrite(ws + [w], ch) == if w.ch == ch then Some(w) else LastWrite(ws, ch)
    ensures LastGood(ws + [w], ch) == if w.ch == ch && w.ok then Some(w) else LastGood(ws, ch)
  {
    assert (ws + [w])[..|ws|] == ws;
  }

  lemma {:induction false} SettleSnoc(o: Outputs, ws: seq<Write>, w: Write)
    ensures Settle(o, ws + [w]) == Then(o, Settle(o, ws), w)
  {
    hide LastWrite, LastGood;
    LastSnoc(ws, w, EnginePower);
    LastSnoc(ws, w, DashboardPower);
    LastSnoc(ws, w, EngineBrake);
  }

  /** Deferred and immediate reporting leave the same behind, but that the held-dark fault,
      which a power-on would have cleared, may outlive a cut. */
  ghost predicate Agree(o: Outputs, settled: Outputs, now: Outputs) {
    settled == now.(ecuHeld := settled.ecuHeld)
    && (now.ecuHeld ==> settled.ecuHeld) && (settled.ecuHeld ==> o.ecuHeld)
    && (settled.engine.level && (o.ecuHeld ==> !o.engine.level) ==> settled.ecuHeld == now.ecuHeld)
  }

  lemma OneMoreWriteAgrees(o: Outputs, settled: Outputs, now: Outputs, w: Write)
    requires Agree(o, settled, now)
    ensures Agree(o, Then(o, settled, w), Put(now, w))
  {
  }

  /** Deferring every report to the join publishes what reporting each write at once would
      have left behind. */
  lemma {:induction false} DeferredMatchesImmediate(o: Outputs, ws: seq<Write>)
    ensures Agree(o, Settle(o, ws), Immediate(o, ws))
  {
    if ws == [] {
    } else {
      var front, w := ws[..|ws| - 1], ws[|ws| - 1];
      assert ws == front + [w];
      hide Settle, Agree;
      DeferredMatchesImmediate(o, front);
      SettleSnoc(o, front, w);
      OneMoreWriteAgrees(o, Settle(o, front), Immediate(o, front), w);
    }
  }

  /** Whatever the writes do, what is published keeps describing the lines ... */
  lemma SettleConsistent(o: Outputs, ws: seq<Write>)
    requires o.Consistent()
    ensures Settle(o, ws).Consistent()
  {
  }

  /** ... and a power line that is published wrongly stays so exactly until a write of it succeeds. */
  lemma {:induction false} SettleTells(o: Outputs, ws: seq<Write>)
    ensures Settle(o, ws).EngineTold() <==> o.EngineTold() || LastGood(ws, EnginePower).Some?
    ensures Settle(o, ws).DashTold() <==> o.DashTold() || LastGood(ws, DashboardPower).Some?
    ensures o.FaultsTold() ==> Settle(o, ws).FaultsTold()
  {
  }

  lemma {:induction false} LastGoodSome(ws: seq<Write>, ch: Channel)
    ensures LastGood(ws, ch).Some? <==> exists w | w in ws :: w.ch == ch && w.ok
  {
    if ws == [] {
    } else {
      var front, last := ws[..|ws| - 1], ws[|ws| - 1];
      assert ws == front + [last];
      LastGoodSome(front, ch);
    }
  }

  lemma SettleSteps(o: Outputs, ws: seq<Write>)
    ensures Settle(o, ws[..0]) == o && ws[..|ws|] == ws
    ensures forall k | 0 <= k < |ws| :: Settle(o, ws[..k + 1]) == Then(o, Settle(o, ws[..k]), ws[k])
  {
    forall k | 0 <= k < |ws| ensures Settle(o, ws[..k + 1]) == Then(o, Settle(o, ws[..k]), ws[k]) {
      assert ws[..k + 1] == ws[..k] + [ws[k]];
      SettleSnoc(o, ws[..k], ws[k]);
    }
  }

  /** Parked: between any two writes an interlock that held keeps holding, and after the
      last one it holds wherever the machine came from. */
  lemma ParkedKeepsInterlock(o: Outputs, w: Wires, k: nat)
    requires w.engineOffOk && k <= |ParkedWrites(w)|
    ensures o.Interlock() || k == |ParkedWrites(w)| ==> Settle(o, ParkedWrites(w)[..k]).Interlock()
    ensures EnterParked(o, w).Interlock()
    ensures !w.brakeOk ==> !EnterParked(o, w).engine.level
    ensures o.Consistent() ==> EnterParked(o, w).Consistent()
  {
    var ws := ParkedWrites(w);
    SettleSteps(o, ws);
    assert Settle(o, ws[..1]).brake.level == (w.brakeOk || o.brake.level);
    assert Settle(o, ws[..2]).Interlock();
    assert Settle(o, ws[..3]).Interlock();
  }

  /** Entering drive: the brake is never released before the last write, the motor ends up
      free only behind a passed recheck, and every rejection ends interlocked. */
  lemma DriveReleasesLast(o: Outputs, w: Wires, recheck: bool, levers: bool, k: nat)
    requires w.engineOffOk && k < |DriveWrites(w, recheck, levers)|
    ensures o.brake.level ==> Settle(o, DriveWrites(w, recheck, levers)[..k]).brake.level
    ensures var after := EnterReadyToDrive(o, w, recheck, levers);
      && (!after.Interlock() && o.Interlock() ==> w.dashOnOk && recheck)
      && (!(w.dashOnOk && recheck) ==> after.Interlock())
      && (w.dashOnOk && recheck && w.brakeOk ==> after.brake.level == levers)
      && (w.dashOnOk && recheck && w.engineOnOk ==> after.engine.level)
      && (o.Consistent() ==> after.Consistent())
  {
    var ws := DriveWrites(w, recheck, levers);
    hide Settle;
    SettleSteps(o, ws);
    if o.Consistent() { SettleConsistent(o, ws); }
    assert Settle(o, ws[..1]).brake == o.brake;
    assert Settle(o, ws[..2]).brake == o.brake;
    assert Settle(o, ws[..3]) == Then(o, Settle(o, ws[..2]), ws[2]);
    if w.dashOnOk && !recheck && !w.brakeOk {
      assert Settle(o, ws[..4]) == Then(o, Settle(o, ws[..3]), ws[3]);
    }
  }

  lemma SingleWrite(o: Outputs, w: Write)
    ensures Settle(o, [w]) == Put(o, w)
  {
    assert Settle(o, []) == o;
    hide Settle;
    SettleSnoc(o, [], w);
    assert [] + [w] == [w];
  }

  lemma BrakeEdgeFrame(o: Outputs, seen: SystemState, levers: bool, ok: bool)
    ensures var after := BrakeEdge(o, seen, levers, ok);
      && after.engine == o.engine
      && after.brake.level == (if !ok then o.brake.level else seen == ShownReadyToDrive ==> levers)
      && (o.Consistent() ==> after.Consistent())
  {
    SingleWrite(o, Write(EngineBrake, if seen == ShownReadyToDrive then levers else true, ok));
  }

  /** A lever edge keeps the interlock exactly when it does not release the brake on a
      live controller; handled with the current state it never does outside drive. */
  lemma BrakeEdgeInterlock(o: Outputs, seen: SystemState, levers: bool, ok: bool)
    requires o.Interlock()
    ensures BrakeEdge(o, seen, levers, ok).Interlock()
      <==> !(seen == ShownReadyToDrive && !levers && ok && o.engine.level)
  {
    BrakeEdgeFrame(o, seen, levers, ok);
  }

  /** What the single-write operations leave alone. */
  lemma EngineCut(o: Outputs, w: Wires)
    requires w.engineOffOk
    ensures !EnterShuttingDown(o, w).engine.level
    ensures o.Consistent() ==> EnterShuttingDown(o, w).Consistent()
  {
    SingleWrite(o, Write(EnginePower, false, w.engineOffOk));
  }

  lemma DashboardOnly(o: Outputs, w: Wires)
    ensures CutDashboard(o, w).engine == PowerDashboard(o, w).engine == o.engine
    ensures CutDashboard(o, w).brake == PowerDashboard(o, w).brake == o.brake
    ensures w.dashOffOk ==> !CutDashboard(o, w).dash.level
    ensures o.Consistent() ==> CutDashboard(o, w).Consistent() && PowerDashboard(o, w).Consistent()
  {
    SingleWrite(o, Write(DashboardPower, false, w.dashOffOk));
    SingleWrite(o, Write(DashboardPower, true, w.dashOnOk));
  }

  /** The two lines put where every state but drive agrees on, brake first. */
  function MotorSafe(o: Outputs, w: Wires): Outputs {
    Put(Put(o, Write(EngineBrake, true, w.brakeOk)), Write(EnginePower, false, w.engineOffOk))
  }

  /** Which writes of an entry action put a wrong publication right. */
  lemma ParkedTells(o: Outputs, w: Wires)
    requires w.engineOffOk && o.FaultsTold()
    ensures var after := EnterParked(o, w);
      after.FaultsTold() && (o.EngineTold() ==> after.EngineTold())
      && (after.DashTold() <==> o.DashTold() || w.dashOnOk)
  {
    var ws := ParkedWrites(w);
    hide Settle, LastGood;
    SettleTells(o, ws);
    LastGoodSome(ws, DashboardPower);
    assert Write(DashboardPower, true, w.dashOnOk) in ws;
    ParkedKeepsInterlock(o, w, 0);
  }

  lemma DriveTells(o: Outputs, w: Wires, recheck: bool, levers: bool)
    requires o.FaultsTold()
    ensures var after := EnterReadyToDrive(o, w, recheck, levers);
      after.FaultsTold() && (o.EngineTold() ==> after.EngineTold())
      && (after.DashTold() <==> o.DashTold() || w.dashOnOk)
  {
    var ws := DriveWrites(w, recheck, levers);
    hide Settle, LastGood;
    SettleTells(o, ws);
    LastGoodSome(ws, DashboardPower);
    assert ws[1] == Write(DashboardPower, true, w.dashOnOk);
    assert forall x | x in ws && x.ch == DashboardPower :: x == ws[1];
  }

  lemma CutTells(o: Outputs, w: Wires)
    requires o.FaultsTold()
    ensures var after := CutDashboard(o, w);
      after.FaultsTold() && (after.EngineTold() <==> o.EngineTold())
      && (after.DashTold() <==> o.DashTold() || w.dashOffOk)
  {
    SingleWrite(o, Write(DashboardPower, false, w.dashOffOk));
  }

  lemma ShutdownTells(o: Outputs, w: Wires)
    requires o.FaultsTold()
    ensures var after := EnterShuttingDown(o, w);
      after.FaultsTold() && (after.EngineTold() <==> o.EngineTold() || w.engineOffOk)
      && (after.DashTold() <==> o.DashTold())
  {
    SingleWrite(o, Write(EnginePower, false, w.engineOffOk));
  }

  lemma MotorSafeTells(o: Outputs, w: Wires)
    requires o.FaultsTold()
    ensures var after := MotorSafe(o, w);
      after.FaultsTold() && (o.EngineTold() ==> after.EngineTold()) && (after.DashTold() <==> o.DashTold())
  {
  }

  lemma BrakeTells(o: Outputs, ok: bool)
    requires o.FaultsTold()
    ensures var after := Put(o, Write(EngineBrake, true, ok));
      after.FaultsTold() && (after.EngineTold() <==> o.EngineTold()) && (after.DashTold() <==> o.DashTold())
  {
  }
}
