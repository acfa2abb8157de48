/** Reporting split from writing: a GPIO write returns effects that are run later, in
    order, before the transition is published. */
module DeferredEffects {
  import opened Outputs

  /** `Report` raises or clears the output's fault, `Finish` publishes a commanded power
      state; powering the controller also ends its held-dark fault. */
  datatype Effect =
    | Report(ch: Channel, failed: bool)
    | Finish(ch: Channel, enabled: bool)
    | Nothing

  /** The line itself, with nothing reported yet. */
  function RawWrite(o: Outputs, w: Write): Outputs {
    match w.ch
    case EnginePower => o.(engine := o.engine.(level := if w.ok then w.value else o.engine.level, failed := !w.ok))
    case DashboardPower => o.(dash := o.dash.(level := if w.ok then w.value else o.dash.level, failed := !w.ok))
    case EngineBrake => o.(brake := o.brake.(level := if w.ok then w.value else o.brake.level, failed := !w.ok))
  }

  function Apply(o: Outputs, e: Effect): Outputs {
    match e
    case Report(EnginePower, failed) => o.(engine := o.engine.(fault := failed))
    case Report(DashboardPower, failed) => o.(dash := o.dash.(fault := failed))
    case Report(EngineBrake, failed) => o.(brake := o.brake.(fault := failed))
    case Finish(EnginePower, enabled) => o.(enginePublished := enabled, ecuHeld := o.ecuHeld && !enabled)
    case Finish(DashboardPower, enabled) => o.(dashPublished := enabled)
    case Finish(EngineBrake, _) => o
    case Nothing => o
  }

  function RawAll(o: Outputs, ws: seq<Write>): Outputs {
    if ws == [] then o else RawWrite(RawAll(o, ws[..|ws| - 1]), ws[|ws| - 1])
  }

  function ApplyAll(o: Outputs, es: seq<Effect>): Outputs {
    if es == [] then o else Apply(ApplyAll(o, es[..|es| - 1]), es[|es| - 1])
  }

  function ReportOf(w: Write): Effect { Report(w.ch, !w.ok) }

  function FinishOf(w: Write): Effect { if w.ok then Finish(w.ch, w.value) else Nothing }

  /** The effects the drive entry runs at its join, in its order. After a cut that worked
      the earlier power-on is not published any more. */
  function DriveEffects(w: Wires, recheck: bool, levers: bool): seq<Effect> {
    var on, dash := Write(EnginePower, true, w.engineOnOk), Write(DashboardPower, true, w.dashOnOk);
    var off := Write(EnginePower, false, w.engineOffOk);
    if !w.dashOnOk then
      if w.engineOffOk then [ReportOf(on), ReportOf(dash), ReportOf(off), FinishOf(off)]
      else [ReportOf(on), FinishOf(on), ReportOf(dash), ReportOf(off)]
    else if recheck then
      [ReportOf(on), FinishOf(on), ReportOf(dash), FinishOf(dash), Report(EngineBrake, !w.brakeOk)]
    else if w.brakeOk then
      [ReportOf(on), FinishOf(on), ReportOf(dash), FinishOf(dash), Report(EngineBrake, false)]
    else
      [ReportOf(on), if w.engineOffOk then FinishOf(off) else FinishOf(on), ReportOf(dash), FinishOf(dash),
       Report(EngineBrake, true), ReportOf(off)]
  }

  lemma {:induction false} RawSteps(o: Outputs, ws: seq<Write>)
    ensures RawAll(o, ws[..0]) == o && ws[..|ws|] == ws
    ensures forall k | 0 <= k < |ws| :: RawAll(o, ws[..k + 1]) == RawWrite(RawAll(o, ws[..k]), ws[k])
  {
    forall k | 0 <= k < |ws| ensures RawAll(o, ws[..k + 1]) == RawWrite(RawAll(o, ws[..k]), ws[k]) {
      assert ws[..k + 1][..k] == ws[..k];
    }
  }

  lemma {:induction false} ApplySteps(o: Outputs, es: seq<Effect>)
    ensures ApplyAll(o, es[..0]) == o && es[..|es|] == es
    ensures forall k | 0 <= k < |es| :: ApplyAll(o, es[..k + 1]) == Apply(ApplyAll(o, es[..k]), es[k])
  {
    forall k | 0 <= k < |es| ensures ApplyAll(o, es[..k + 1]) == Apply(ApplyAll(o, es[..k]), es[k]) {
      assert es[..k + 1][..k] == es[..k];
    }
  }

  lemma {:induction false} Writes3(o: Outputs, a: Write, b: Write, c: Write)
    ensures RawAll(o, [a, b, c]) == RawWrite(RawWrite(RawWrite(o, a), b), c)
    ensures Settle(o, [a, b, c]) == Then(o, Then(o, Then(o, o, a), b), c)
  {
    RawSteps(o, [a, b, c]);
    SettleSteps(o, [a, b, c]);
    assert RawAll(o, [a, b, c][..2]) == RawWrite(RawWrite(o, a), b);
    assert Settle(o, [a, b, c][..2]) == Then(o, Then(o, o, a), b);
  }

  lemma {:induction false} Writes4(o: Outputs, a: Write, b: Write, c: Write, d: Write)
    ensures RawAll(o, [a, b, c, d]) == RawWrite(RawWrite(RawWrite(RawWrite(o, a), b), c), d)
    ensures Settle(o, [a, b, c, d]) == Then(o, Then(o, Then(o, Then(o, o, a), b), c), d)
  {
    Writes3(o, a, b, c);
    SettleSnoc(o, [a, b, c], d);
    assert [a, b, c, d][..3] == [a, b, c] && [a, b, c] + [d] == [a, b, c, d];
  }

  lemma {:induction false} Effects4(o: Outputs, a: Effect, b: Effect, c: Effect, d: Effect)
    ensures ApplyAll(o, [a, b, c, d]) == Apply(Apply(Apply(Apply(o, a), b), c), d)
  {
    ApplySteps(o, [a, b, c, d]);
    assert ApplyAll(o, [a, b, c, d][..2]) == Apply(Apply(o, a), b);
    assert ApplyAll(o, [a, b, c, d][..3]) == Apply(Apply(Apply(o, a), b), c);
  }

  lemma {:induction false} EffectsMore(o: Outputs, es: seq<Effect>, e: Effect)
    ensures ApplyAll(o, es + [e]) == Apply(ApplyAll(o, es), e)
  {
    assert (es + [e])[..|es|] == es;
  }

  lemma {:induction false} Effects5(o: Outputs, a: Effect, b: Effect, c: Effect, d: Effect, e: Effect)
    ensures ApplyAll(o, [a, b, c, d, e]) == Apply(Apply(Apply(Apply(Apply(o, a), b), c), d), e)
  {
    Effects4(o, a, b, c, d);
    EffectsMore(o, [a, b, c, d], e);
    assert [a, b, c, d] + [e] == [a, b, c, d, e];
  }

  lemma {:induction false} Effects6(o: Outputs, a: Effect, b: Effect, c: Effect, d: Effect, e: Effect, f: Effect)
    ensures ApplyAll(o, [a, b, c, d, e, f]) == Apply(Apply(Apply(Apply(Apply(Apply(o, a), b), c), d), e), f)
  {
    Effects5(o, a, b, c, d, e);
    EffectsMore(o, [a, b, c, d, e], f);
    assert [a, b, c, d, e] + [f] == [a, b, c, d, e, f];
  }

  lemma {:induction false} DashboardFailedJoins(o: Outputs, on: Write, dash: Write, off: Write)
    requires on.ch == off.ch == EnginePower && on.value && !off.value && dash == Write(DashboardPower, true, false)
    ensures ApplyAll(RawAll(o, [on, dash, off]),
      if off.ok then [ReportOf(on), ReportOf(dash), ReportOf(off), FinishOf(off)]
      else [ReportOf(on), FinishOf(on), ReportOf(dash), ReportOf(off)]) == Settle(o, [on, dash, off])
  {
    Writes3(o, on, dash, off);
    var raw := RawAll(o, [on, dash, off]);
    if off.ok { Effects4(raw, ReportOf(on), ReportOf(dash), ReportOf(off), FinishOf(off)); }
    else { Effects4(raw, ReportOf(on), FinishOf(on), ReportOf(dash), ReportOf(off)); }
  }

  lemma {:induction false} BrakeLastJoins(o: Outputs, on: Write, dash: Write, brake: Write)
    requires on.ch == EnginePower && on.value && dash.ch == DashboardPower && brake.ch == EngineBrake
    ensures ApplyAll(RawAll(o, [on, dash, brake]),
      [ReportOf(on), FinishOf(on), ReportOf(dash), FinishOf(dash), ReportOf(brake)]) == Settle(o, [on, dash, brake])
  {
    Writes3(o, on, dash, brake);
    Effects5(RawAll(o, [on, dash, brake]), ReportOf(on), FinishOf(on), ReportOf(dash), FinishOf(dash), ReportOf(brake));
  }

  lemma {:induction false} RejectedCutJoins(o: Outputs, on: Write, dash: Write, brake: Write, off: Write)
    requires on.ch == off.ch == EnginePower && on.value && !off.value
    requires dash.ch == DashboardPower && brake.ch == EngineBrake && !brake.ok
    ensures ApplyAll(RawAll(o, [on, dash, brake, off]),
      [ReportOf(on), if off.ok then FinishOf(off) else FinishOf(on), ReportOf(dash), FinishOf(dash),
       ReportOf(brake), ReportOf(off)])
      == Settle(o, [on, dash, brake, off])
  {
    Writes4(o, on, dash, brake, off);
    Effects6(RawAll(o, [on, dash, brake, off]), ReportOf(on), if off.ok then FinishOf(off) else FinishOf(on),
             ReportOf(dash), FinishOf(dash), ReportOf(brake), ReportOf(off));
  }

  /** The writes of a drive entry followed by its joined effects settle the outputs. */
  lemma {:induction false} DriveJoinSettles(o: Outputs, w: Wires, recheck: bool, levers: bool)
    ensures ApplyAll(RawAll(o, DriveWrites(w, recheck, levers)), DriveEffects(w, recheck, levers))
            == EnterReadyToDrive(o, w, recheck, levers)
  {
    var on, dash := Write(EnginePower, true, w.engineOnOk), Write(DashboardPower, true, w.dashOnOk);
    var off := Write(EnginePower, false, w.engineOffOk);
    var brake := Write(EngineBrake, if recheck then levers else true, w.brakeOk);
    if !w.dashOnOk {
      DashboardFailedJoins(o, on, dash, off);
      assert DriveWrites(w, recheck, levers) == [on, dash, off];
    } else if recheck || w.brakeOk {
      BrakeLastJoins(o, on, dash, brake);
      assert DriveWrites(w, recheck, levers) == [on, dash, brake];
    } else {
      RejectedCutJoins(o, on, dash, brake, off);
      assert DriveWrites(w, recheck, levers) == [on, dash, brake, off];
    }
  }

  /** A write reported on the spot. */
  lemma WriteThenReport(o: Outputs, w: Write)
    ensures Apply(Apply(RawWrite(o, w), ReportOf(w)), FinishOf(w)) == Put(o, w)
    ensures w.ch == EngineBrake ==> Apply(RawWrite(o, w), ReportOf(w)) == Put(o, w)
  {
  }
}
