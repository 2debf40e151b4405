/** Nothing the controller does rewrites its log. */
module LidLog {
  import opened Numeric
  import opened BatteryPolicy
  import opened DistanceFilter
  import opened Gpio
  import opened Lid

  /** l' comes from l by adding events, and time has not gone back. */
  predicate Extends(l: Lid, l': Lid) {
    Prefix(l.bus.log, l'.bus.log) && l.clock <= l'.clock
  }

  lemma Refl(l: Lid)
    ensures Extends(l, l)
  {
  }

  lemma Trans(a: Lid, b: Lid, c: Lid)
    requires Extends(a, b) && Extends(b, c)
    ensures Extends(a, c)
  {
    PrefixTrans(a.bus.log, b.bus.log, c.bus.log);
  }

  lemma EmitExtends(from: Lid, l: Lid, e: Event)
    requires Extends(from, l)
    ensures Extends(from, Emit(l, e))
  {
    assert Prefix(l.bus.log, l.bus.log);
    PrefixTrans(from.bus.log, l.bus.log, Emit(l, e).bus.log);
  }

  lemma ForceOffExtends(from: Lid, l: Lid)
    requires Extends(from, l)
    ensures Extends(from, ForceOff(l))
  {
    hide Prefix;
    EmitExtends(from, l, MainOff);
    EmitExtends(from, Emit(l, MainOff), DirMode(DirA, Input));
    EmitExtends(from, Emit(Emit(l, MainOff), DirMode(DirA, Input)), DirMode(DirB, Input));
  }

  lemma TransitionExtends(from: Lid, l: Lid, next: FsmState)
    requires Extends(from, l)
    ensures Extends(from, TransitionTo(l, next))
  {
    hide Prefix;
    var m := Moved(l, next);
    var h := Emit(m, SaveHold(l.policy.latch.held));
    EmitExtends(from, m, SaveHold(l.policy.latch.held));
    EmitExtends(from, h, SaveLid(true));
    EmitExtends(from, h, SaveLid(false));
  }

  lemma ReadExtends(from: Lid, l: Lid, r: Reading)
    requires Extends(from, l)
    ensures Extends(from, ReadSensors(l, r))
  {
    hide Prefix, NextPolicy;
    var e := ReadPower(r, l.config.voltageShutdownLimit);
    EmitExtends(from, l, e);
    EmitExtends(from, Emit(l, e), LatchReleased);
  }

  lemma SwitchExtends(from: Lid, l: Lid, mainOn: bool, open: bool, close: bool, slackA: nat, slackB: nat)
    requires Extends(from, l)
    ensures Extends(from, SwitchDirection(l, mainOn, open, close, slackA, slackB))
  {
    hide Prefix;
    EmitExtends(from, l, MainOff);
    var broken := Wait(Emit(l, MainOff), slackA);
    EmitExtends(from, broken, DirWrite(DirA, true));
    var a := Emit(broken, DirWrite(DirA, true));
    EmitExtends(from, a, DirWrite(DirB, true));
    var neutral := Emit(a, DirWrite(DirB, true));
    EmitExtends(from, neutral, DirMode(DirA, Output));
    EmitExtends(from, Emit(neutral, DirMode(DirA, Output)), DirMode(DirB, Output));
    var n := Neutralise(l, mainOn, slackA);
    assert Extends(from, n);
    EmitExtends(from, n, DirWrite(DirA, !open));
    EmitExtends(from, Emit(n, DirWrite(DirA, !open)), DirWrite(DirB, open || !close));
  }

  lemma StopChargingExtends(from: Lid, l: Lid, reason: CloseResult)
    requires Extends(from, l)
    ensures Extends(from, StopCharging(l, reason))
  {
    hide Prefix, ForceOff;
    ForceOffExtends(from, l);
    var off := ForceOff(l);
    RearmExtends(from, off.(charge := l.charge.(active := false, result := reason),
                            drive := off.drive.(lowBatteryOpening := false)));
  }

  lemma RearmExtends(from: Lid, l: Lid)
    requires Extends(from, l)
    ensures Extends(from, Rearmed(l))
  {
    hide Prefix;
    EmitExtends(from, l, LatchRestored);
  }

  lemma RecheckExtends(from: Lid, l: Lid, r: Reading)
    requires Extends(from, l)
    ensures Extends(from, Rechecked(l, r))
  {
    hide Prefix, ReadSensors, StopCharging;
    ReadExtends(from, l, r);
    StopChargingExtends(from, ReadSensors(l, r), BadSensor);
    StopChargingExtends(from, ReadSensors(l, r), LowVoltage);
    StopChargingExtends(from, ReadSensors(l, r), Expired);
  }

  lemma SetRelaysExtends(from: Lid, l: Lid, mainOn: bool, open: bool, close: bool, env: Env)
    requires Extends(from, l)
    ensures Extends(from, SetRelays(l, mainOn, open, close, env))
  {
    hide Prefix, ForceOff, TransitionTo, SwitchDirection, Rechecked;
    if open && close {
      ForceOffExtends(from, l);
      TransitionExtends(from, ForceOff(l), EmergencyStop);
    } else {
      SwitchExtends(from, l, mainOn, open, close, env.slackA, env.slackB);
      var s := if DirectionChanges(l, mainOn, open, close)
               then SwitchDirection(l, mainOn, open, close, env.slackA, env.slackB) else l;
      EmitExtends(from, s, MainOff);
      EmitExtends(from, s, MainOn(PurposeOf(s)));
      RecheckExtends(from, s, env.reread);
      var r := Rechecked(s, env.reread);
      EmitExtends(from, r, MainOn(PurposeOf(r)));
    }
  }

  lemma SuperviseExtends(from: Lid, l: Lid)
    requires Extends(from, l)
    ensures Extends(from, SuperviseCharge(l))
  {
    hide Prefix, StopCharging, ChargingPowerSafe, TakeSnapshot;
    StopChargingExtends(from, l, BadSensor);
    StopChargingExtends(from, l, LowVoltage);
    StopChargingExtends(from, l, Cancelled);
    StopChargingExtends(from, l, Expired);
    StopChargingExtends(from, l, StrokeFinished);
    var stalls := if StallLimit(l.config.currentStallLimit).Lt(l.motorCurrent.Abs()) then l.charge.stalls + 1 else 0;
    StopChargingExtends(from, l.(charge := l.charge.(stalls := stalls)), Overcurrent);
  }

  lemma ProtectExtends(from: Lid, l: Lid, valid: bool)
    requires Extends(from, l)
    ensures Extends(from, Protect(l, valid))
  {
    hide Prefix, ForceOff;
    ForceOffExtends(from, l.(drive := l.drive.(lowBatteryOpening := false)));
  }

  lemma EnterProtectionExtends(from: Lid, l: Lid, env: Env)
    requires Extends(from, l)
    ensures Extends(from, EnterProtection(l, env))
  {
    hide Prefix, ForceOff, TransitionTo, SetRelays, TakeSnapshot;
    var critical := l.Power().valid && l.Power().state == Protected;
    var m := l.(drive := l.drive.(lowBatteryOpening := critical));
    TransitionExtends(from, m, BatteryLowShutdown);
    SetRelaysExtends(from, TransitionTo(m, BatteryLowShutdown), true, true, false, env);
    ForceOffExtends(from, TransitionTo(m, BatteryLowShutdown));
  }

  lemma ServicePowerExtends(l: Lid, env: Env)
    ensures Extends(l, ServicePower(l, env).lid)
  {
    hide Prefix, ForceOff, TransitionTo, SetRelays, TakeSnapshot, ReadSensors, SuperviseCharge, Protect, EnterProtection;
    Refl(l);
    ReadExtends(l, l, env.reading);
    var r := PeriodicRead(l, env.reading);
    SuperviseExtends(l, r);
    ForceOffExtends(l, r);
    ProtectExtends(l, r, r.Power().valid);
    EnterProtectionExtends(l, r, env);
    ProtectExtends(l, EnterProtection(r, env), r.Power().valid);
    var off := ForceOff(r);
    TransitionExtends(l, off.(drive := off.drive.(lowBatteryOpening := false),
                              sense := r.sense.(maintenanceRequested := false, calibration := false, deadlock := false,
                                                deadlockClear := 0, cooling := false, lastDetect := 0,
                                                distance := 999.0, window := ALL_FAR, blindStart := r.Now())), Idle);
  }

  /** A tick function is made of relay steps and at most one transition. */
  lemma StepsExtend(from: Lid, l: Lid, env: Env)
    requires Extends(from, l)
    ensures Extends(from, AllOff(l, env)) && Extends(from, ForceOff(l))
    ensures Extends(from, SetRelays(l, true, true, false, env)) && Extends(from, SetRelays(l, true, false, true, env))
    ensures forall next :: Extends(from, TransitionTo(l, next))
  {
    hide Prefix, ForceOff, TransitionTo, SetRelays, Extends;
    SetRelaysExtends(from, l, false, false, false, env);
    SetRelaysExtends(from, l, true, true, false, env);
    SetRelaysExtends(from, l, true, false, true, env);
    ForceOffExtends(from, l);
    forall next ensures Extends(from, TransitionTo(l, next)) { TransitionExtends(from, l, next); }
  }

  lemma SameLogExtends(from: Lid, l: Lid, l': Lid)
    requires Extends(from, l) && l'.bus == l.bus && l'.clock >= l.clock
    ensures Extends(from, l')
  {
  }

  lemma RestExtends(l: Lid, env: Env)
    ensures Extends(l, TickStartup(l, env)) && Extends(l, TickIdle(l, env))
    ensures Extends(l, TickHold(l, env)) && Extends(l, TickMaintenance(l, env))
    ensures Extends(l, TickEmergency(l))
  {
    hide Prefix, ForceOff, TransitionTo, SetRelays, AllOff, Healed, Extends, Sees;
    Refl(l);
    StepsExtend(l, l, env);
    var off := AllOff(l, env);
    forall m: Lid | m.bus == off.bus && m.clock >= off.clock ensures Extends(l, m) { SameLogExtends(l, off, m); }
    var isolated := ForceOff(l);
    forall m: Lid | m.bus == isolated.bus && m.clock >= isolated.clock ensures Extends(l, m) { SameLogExtends(l, isolated, m); }
    forall m: Lid, next | Extends(l, m) ensures Extends(l, TransitionTo(m, next)) { TransitionExtends(l, m, next); }
  }

  lemma MotionExtends(l: Lid, env: Env)
    ensures Extends(l, TickOpenStart(l, env)) && Extends(l, TickCloseStart(l, env))
    ensures Extends(l, TickOpening(l, env)) && Extends(l, TickClosing(l, env))
  {
    hide Prefix, ForceOff, TransitionTo, SetRelays, AllOff, Extends, Sees, Stalled;
    forall m: Lid | m.bus == l.bus && m.clock >= l.clock
      ensures Extends(l, m) && Extends(l, AllOff(m, env)) && Extends(l, ForceOff(m))
      ensures Extends(l, SetRelays(m, true, true, false, env)) && Extends(l, SetRelays(m, true, false, true, env))
    {
      Refl(l);
      SameLogExtends(l, l, m);
      StepsExtend(l, m, env);
    }
    forall m: Lid, next | Extends(l, m) ensures Extends(l, TransitionTo(m, next)) { TransitionExtends(l, m, next); }
    forall m: Lid, s: Sense | Extends(l, m) ensures Extends(l, m.(sense := s)) { SameLogExtends(l, m, m.(sense := s)); }
  }

  lemma RunStateExtends(l: Lid, env: Env)
    ensures Extends(l, RunState(l, env))
  {
    hide Prefix, ForceOff, TransitionTo, SetRelays, AllOff, Extends, TickStartup, TickIdle, TickHold, TickMaintenance,
         TickEmergency, TickOpenStart, TickCloseStart, TickOpening, TickClosing;
    Refl(l);
    StepsExtend(l, l, env);
    RestExtends(l, env);
    MotionExtends(l, env);
  }

  lemma RequestExtends(l: Lid, ttl: u32, env: Env)
    ensures Extends(l, RequestChargingClose(l, ttl, env))
  {
    hide Prefix, SetRelays, ReadSensors, ChargeAdmitted, ChargeRequestable;
    Refl(l);
    ReadExtends(l, l, env.reading);
    var read := ReadSensors(l, env.reading);
    RearmExtends(l, read.(
      charge := read.charge.(used := true, active := true, result := Running, requestAt := read.Now(), ttl := ttl, stalls := 0),
      drive := read.drive.(lowBatteryOpening := false),
      sense := read.sense.(maintenanceRequested := false, calibration := false)));
    SetRelaysExtends(l, ChargeBegun(ReadSensors(l, env.reading), ttl), true, false, true, env);
  }

  lemma PerformExtends(l: Lid, op: Op)
    ensures Extends(l, Perform(l, op))
  {
    hide Prefix, ForceOff, TransitionTo, RunState, ServicePower, RequestChargingClose, CanStartOta, TakeSnapshot;
    Refl(l);
    match op {
      case Tick(env) =>
        ServicePowerExtends(l, env);
        var o := Observed(ServicePower(l, env).lid, env.distance);
        RunStateExtends(o, env);
        Trans(l, o, RunState(o, env));
      case OtaPower(env) => ServicePowerExtends(l, env);
      case CloseForCharging(ttl, env) => RequestExtends(l, ttl, env);
      case BeginUpdate(_, _) =>
        ForceOffExtends(l, l);
        forall m: Lid | m.bus == ForceOff(l).bus && m.clock >= ForceOff(l).clock ensures Extends(l, TransitionTo(m, OtaUpdating)) {
          SameLogExtends(l, ForceOff(l), m);
          TransitionExtends(l, m, OtaUpdating);
        }
      case EndUpdate =>
        var o := l.(ota := l.ota.(recovery := false, maintenance := false));
        SameLogExtends(l, l, o);
        ForceOffExtends(l, o);
        forall m: Lid, next | m.bus == ForceOff(o).bus && m.clock >= ForceOff(o).clock
          ensures Extends(l, TransitionTo(m, next)) && Extends(l, TransitionTo(Rearmed(m), next))
        {
          SameLogExtends(l, ForceOff(o), m);
          RearmExtends(l, m);
          TransitionExtends(l, m, next);
          TransitionExtends(l, Rearmed(m), next);
        }
      case _ =>
        forall m: Lid, next | m.bus == l.bus && m.clock >= l.clock ensures Extends(l, m) && Extends(l, TransitionTo(m, next)) {
          SameLogExtends(l, l, m);
          TransitionExtends(l, m, next);
        }
    }
  }

  lemma {:induction false} RunExtends(l: Lid, ops: seq<Op>)
    ensures Extends(l, RunOps(l, ops))
    decreases |ops|
  {
    hide Prefix, Perform;
    if ops == [] {
      Refl(l);
    } else {
      PerformExtends(l, ops[0]);
      RunExtends(Perform(l, ops[0]), ops[1..]);
      Trans(l, Perform(l, ops[0]), RunOps(Perform(l, ops[0]), ops[1..]));
    }
  }

  lemma BootExtends(nvs: Nvs, clock: nat, config: Config, r: Reading)
    ensures Prefix(Booted(clock, nvs), Boot(nvs, clock, config, r).bus.log)
  {
  }
}
