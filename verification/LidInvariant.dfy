/** What holds between any two operations of the controller, whatever they are. */
module LidInvariant {
  import opened Numeric
  import opened BatteryPolicy
  import opened DistanceFilter
  import opened Gpio
  import opened Lid
  import opened LidWiring

  const CHARGE_TTL_MS: u32 := 120000

  /** Since admission the counter has stayed inside the time to live, and a recovery
      timer, if it runs, was started after admission. */
  predicate ChargeClock(c: Charge, p: Policy) {
    && p.sampled && c.ttl <= CHARGE_TTL_MS
    && Since(p.sampleAt, c.requestAt) < c.ttl
    && (p.latch.recovery.on ==> Since(p.latch.recovery.at, c.requestAt) <= Since(p.sampleAt, c.requestAt))
  }

  predicate Charging(l: Lid) {
    && (l.charge.active ==>
          && l.charge.result == Running && l.state == BatteryLowShutdown && l.policy.latch.held
          && !l.drive.lowBatteryOpening && ChargeClock(l.charge, l.policy))
    && (l.charge.result == Running ==> l.charge.active)
    && l.charge.result != Cancelled
    && (l.charge.used <==> l.charge.result != NoClose)
    && (!l.charge.used ==> l.bus.pins.closes == 0)
  }

  /** Protection: a held latch confines the state, and that state is on record. */
  predicate Confined(l: Lid) {
    && (l.policy.latch.held ==> l.state == BatteryLowShutdown || l.state == OtaUpdating)
    && (l.state == BatteryLowShutdown ==> l.bus.pins.nvs.Durable())
    && Owned(l)
  }

  /** The main relay is energised only in a motion state or for one of the two strokes
      protection knows, and never during an update. */
  predicate Powered(l: Lid) {
    && (l.bus.pins.mainOn ==>
          l.InMotion() ||
          (l.state == BatteryLowShutdown && (l.drive.lowBatteryOpening || l.charge.active)))
    && (l.state == BatteryLowShutdown && l.drive.lowBatteryOpening ==> l.bus.pins.mainOn)
    && (l.state == OtaUpdating ==> l.drive.isolated)
    && Steered(l)
  }

  /** What decides whether a stroke finds its direction pins driven. */
  predicate Steered(l: Lid) {
    && (l.state == BatteryLowShutdown && l.bus.pins.aMode == Input ==> l.drive.isolated)
    && (l.state == Closing || l.state == EmergencyStop ==> !l.drive.lastOpen)
  }

  predicate Metered(l: Lid) {
    WellFormed(l.policy) && l.policy.sampled && l.policy.sampleAt == l.lastPowerReading
  }

  predicate Inv(l: Lid) {
    Wired(l) && Metered(l) && Confined(l) && Powered(l) && Charging(l)
  }

  /** A stroke is under way: a charging close, an ordinary one, or the opening of protection
      with main on and its time not over. */
  predicate UnderWay(l: Lid) {
    l.charge.active || l.InMotion() ||
    (l.state == BatteryLowShutdown && l.bus.pins.mainOn && Since(l.Now(), l.stateTimer) < l.config.actuatorTime)
  }

  lemma MotorIsUnderWay(l: Lid)
    requires Inv(l)
    ensures l.MotorRunning() <==> UnderWay(l)
  {
  }

  // ---- Power ----

  /** A sample inside the time to live cannot complete the recovery. */
  lemma ChargeSample(c: Charge, p: Policy, now: u32, voltage: Float, ok: bool, limit: Float)
    requires p.latch.held && ChargeClock(c, p)
    ensures
      var p' := Sampled(p, now, voltage, ok, limit);
      && p'.latch.held && p'.sampled && p'.sampleAt == now
      && (p'.latch.recovery.on ==> Since(p'.latch.recovery.at, c.requestAt) <= Since(now, c.requestAt))
  {
    hide Shown;
    if !Gap(p, now) {
      SinceAdds(c.requestAt, p.sampleAt, now);
      if p.latch.recovery.on {
        SinceAdds(c.requestAt, p.latch.recovery.at, now);
      }
    }
  }

  lemma StopChargingKeeps(l: Lid, reason: CloseResult)
    requires Joined(l) && Metered(l) && l.state == BatteryLowShutdown && l.policy.latch.held
    requires l.bus.pins.nvs.Durable()
    requires l.charge.used && reason != Running && reason != NoClose && reason != Cancelled
    ensures
      var l' := StopCharging(l, reason);
      && Inv(l') && !l'.charge.active && l'.policy.latch.held && l'.drive.isolated
      && l'.charge.used && l'.charge.result == reason && l'.state == BatteryLowShutdown
  {
    hide SafeLog, Pinned, ForceOff, Rearmed;
    ForceOffWired(l);
    var off := ForceOff(l);
    RestoredWellFormed(l.policy);
    RearmWired(off.(charge := l.charge.(active := false, result := reason), drive := off.drive.(lowBatteryOpening := false)));
  }

  /** The check a running charging close gets on every tick, and why it ends. */
  lemma SuperviseKeeps(l: Lid)
    requires Wired(l) && Metered(l) && Confined(l) && Powered(l)
    requires l.charge.active && l.charge.used && l.charge.result == Running && l.state == BatteryLowShutdown
    requires l.policy.latch.held && !l.drive.lowBatteryOpening && l.charge.ttl <= CHARGE_TTL_MS
    requires l.policy.latch.recovery.on ==>
               Since(l.policy.latch.recovery.at, l.charge.requestAt) <= Since(l.policy.sampleAt, l.charge.requestAt)
    requires Since(l.policy.sampleAt, l.charge.requestAt) <= Since(l.Now(), l.charge.requestAt)
    ensures Inv(SuperviseCharge(l)) && SuperviseCharge(l).policy.latch.held
    ensures SuperviseCharge(l).state == BatteryLowShutdown && SuperviseCharge(l).charge.used
    ensures !SuperviseCharge(l).charge.active ==> SuperviseCharge(l).drive.isolated
  {
    hide SafeLog, Pinned, StopCharging, ChargingPowerSafe, TakeSnapshot, Float.Lt, Float.Abs, StallLimit, WellFormed;
    StopChargingKeeps(l, BadSensor);
    StopChargingKeeps(l, LowVoltage);
    StopChargingKeeps(l, Expired);
    StopChargingKeeps(l, StrokeFinished);
    var stalls := if StallLimit(l.config.currentStallLimit).Lt(l.motorCurrent.Abs()) then l.charge.stalls + 1 else 0;
    StopChargingKeeps(l.(charge := l.charge.(stalls := stalls)), Overcurrent);
  }

  lemma PeriodicReadKeeps(l: Lid, r: Reading)
    requires Inv(l)
    ensures
      var l' := PeriodicRead(l, r);
      && Wired(l') && Metered(l') && Owned(l') && Powered(l')
      && l' == l.(bus := l'.bus, lastPowerReading := l'.lastPowerReading, motorCurrent := l'.motorCurrent,
                  lastVerified := l'.lastVerified, policy := l'.policy)
      && l'.bus.pins.nvs == l.bus.pins.nvs && l'.bus.pins.mainOn == l.bus.pins.mainOn
      && l'.bus.pins.closes == l.bus.pins.closes
      && (!l.policy.latch.held ==> l'.bus.pins.strokes == 0)
      && (l.charge.active ==>
            && l'.policy.latch.held
            && Since(l'.policy.sampleAt, l.charge.requestAt) <= Since(l.Now(), l.charge.requestAt)
            && (l'.policy.latch.recovery.on ==>
                  Since(l'.policy.latch.recovery.at, l.charge.requestAt) <= Since(l'.policy.sampleAt, l.charge.requestAt)))
  {
    hide SafeLog, Pinned, Sampled, ReadSensors;
    ReadWired(l, r);
    if l.charge.active {
      ChargeSample(l.charge, l.policy, l.Now(), r.voltage, r.ok && r.current.Fin?, l.config.voltageShutdownLimit);
      if Since(l.Now(), l.lastPowerReading) < 200 {
        SinceAdds(l.charge.requestAt, l.policy.sampleAt, l.Now());
      }
    }
  }

  lemma EnterProtectionKeeps(l: Lid, env: Env)
    requires Wired(l) && Metered(l) && Owned(l) && !l.charge.active
    requires l.policy.latch.held && l.bus.pins.strokes == 0
    ensures
      var l' := EnterProtection(l, env);
      && Wired(l') && l'.policy == l.policy && l'.lastPowerReading == l.lastPowerReading && l'.charge == l.charge
      && l'.bus.pins.closes == l.bus.pins.closes
      && l'.state == BatteryLowShutdown && l'.bus.pins.nvs.Durable() && Steered(l')
      && (l'.bus.pins.mainOn <==> l'.drive.lowBatteryOpening)
  {
    hide SafeLog, Pinned, TransitionTo, SetRelays, ForceOff;
    var critical := l.Power().valid && l.Power().state == Protected;
    var m := l.(drive := l.drive.(lowBatteryOpening := critical));
    TransitionWired(m, BatteryLowShutdown);
    var t := TransitionTo(m, BatteryLowShutdown);
    if critical { StrokeWired(t, true, env); } else { ForceOffWired(t); }
  }

  lemma ProtectKeeps(l: Lid, valid: bool)
    requires Wired(l) && Metered(l) && Owned(l) && Charging(l) && !l.charge.active
    requires l.policy.latch.held && l.state == BatteryLowShutdown && l.bus.pins.nvs.Durable()
    requires (l.bus.pins.mainOn <==> l.drive.lowBatteryOpening) && Steered(l)
    ensures Inv(Protect(l, valid)) && Protect(l, valid).policy == l.policy
  {
    hide SafeLog, Pinned, ForceOff;
    ForceOffWired(l.(drive := l.drive.(lowBatteryOpening := false)));
  }

  lemma LeaveProtectionKeeps(l: Lid)
    requires Wired(l) && Metered(l) && Owned(l) && Charging(l) && !l.policy.latch.held
    ensures Inv(LeaveProtection(l)) && LeaveProtection(l).state == Idle && LeaveProtection(l).policy == l.policy
  {
    hide SafeLog, Pinned, TransitionTo, ForceOff;
    ForceOffWired(l);
    var off := ForceOff(l);
    var m := off.(drive := off.drive.(lowBatteryOpening := false),
                  sense := l.sense.(maintenanceRequested := false, calibration := false, deadlock := false,
                                    deadlockClear := 0, cooling := false, lastDetect := 0,
                                    distance := 999.0, window := ALL_FAR, blindStart := l.Now()));
    TransitionWired(m, Idle);
  }

  lemma ServicePowerKeeps(l: Lid, env: Env)
    requires Inv(l)
    ensures
      var s := ServicePower(l, env);
      && Inv(s.lid)
      && (!s.done ==> !s.lid.policy.latch.held && s.lid.state != BatteryLowShutdown && !s.lid.charge.active &&
                      s.lid.state == l.state)
      && (l.state == OtaUpdating ==> s.lid.state == OtaUpdating)
      && (l.charge.active ==>
            && s.done && s.lid.policy.latch.held && s.lid.state == BatteryLowShutdown && s.lid.charge.used
            && (!s.lid.charge.active ==> s.lid.drive.isolated))
  {
    hide SafeLog, Pinned, PeriodicRead, SuperviseCharge, Protect, EnterProtection, LeaveProtection, ForceOff, TakeSnapshot;
    PeriodicReadKeeps(l, env.reading);
    var r := PeriodicRead(l, env.reading);
    HeldIsShown(r);
    if r.charge.active {
      SuperviseKeeps(r);
    } else if r.policy.latch.held {
      if r.state == OtaUpdating {
        ForceOffWired(r);
      } else if r.state == BatteryLowShutdown {
        ProtectKeeps(r, r.Power().valid);
      } else {
        EnterProtectionKeeps(r, env);
        ProtectKeeps(EnterProtection(r, env), r.Power().valid);
      }
    } else if r.state == BatteryLowShutdown {
      LeaveProtectionKeeps(r);
    }
  }

  lemma HeldIsShown(l: Lid)
    ensures l.Power().protectedMode == l.policy.latch.held
    ensures l.Power().actuationAllowed ==> !l.policy.latch.held
  {
  }

  // ---- The state machine ----

  /** Between power service and the end of a tick: no latch, no charging close, no update. */
  predicate Free(l: Lid) {
    && Wired(l) && Metered(l) && Owned(l) && Charging(l)
    && !l.policy.latch.held && !l.charge.active
  }

  predicate Motional(s: FsmState) {
    s == OpenStart || s == Opening || s == CloseStart || s == Closing
  }

  lemma FreeKeeps(l: Lid)
    requires Free(l) && l.state != BatteryLowShutdown && l.state != OtaUpdating
    requires l.bus.pins.mainOn ==> Motional(l.state)
    requires l.state == Closing || l.state == EmergencyStop ==> !l.drive.lastOpen
    ensures Inv(l)
  {
  }

  lemma MoveKeeps(l: Lid, next: FsmState)
    requires Free(l) && next != BatteryLowShutdown && next != OtaUpdating
    requires l.bus.pins.mainOn ==> Motional(next)
    requires next == Closing || next == EmergencyStop ==> !l.drive.lastOpen
    ensures Inv(TransitionTo(l, next)) && TransitionTo(l, next).state == next
    ensures TransitionTo(l, next).bus.pins.mainOn == l.bus.pins.mainOn
    ensures TransitionTo(l, next).bus.pins.aMode == l.bus.pins.aMode
  {
    hide SafeLog, Pinned, TransitionTo;
    TransitionWired(l, next);
  }

  lemma OffIsFree(l: Lid, env: Env)
    requires Free(l)
    ensures Free(AllOff(l, env)) && !AllOff(l, env).bus.pins.mainOn
    ensures AllOff(l, env).state == l.state
  {
    hide SafeLog, Pinned, AllOff;
    AllOffWired(l, env);
  }

  lemma IsolatedIsFree(l: Lid)
    requires Free(l)
    ensures Free(ForceOff(l)) && !ForceOff(l).bus.pins.mainOn && ForceOff(l).state == l.state
    ensures ForceOff(l).drive.lastOpen == l.drive.lastOpen
  {
    hide SafeLog, Pinned, ForceOff;
    ForceOffWired(l);
  }

  lemma TickStartupKeeps(l: Lid, env: Env)
    requires Free(l) && l.state == StartupOpen
    ensures Inv(TickStartup(l, env))
  {
    hide SafeLog, Pinned, AllOff, TransitionTo, Wired, Metered, Charging, Free;
    OffIsFree(l, env);
    var off := AllOff(l, env);
    FreeKeeps(off);
    SenseIsFree(off, off.sense.(calibration := true));
    MoveKeeps(off.(sense := off.sense.(calibration := true)), OpenStart);
  }

  lemma SenseIsFree(l: Lid, s: Sense)
    requires Free(l)
    ensures Free(l.(sense := s))
  {
  }

  lemma TickIdleKeeps(l: Lid, env: Env)
    requires Free(l) && l.state == Idle
    ensures Inv(TickIdle(l, env))
  {
    hide SafeLog, Pinned, AllOff, TransitionTo, Healed, Free;
    OffIsFree(l, env);
    var off := AllOff(l, env);
    var s := Healed(off.sense.(calibration := false), off.config.distThreshold, off.Now());
    forall t: Sense | true
      ensures Inv(off.(sense := t)) && Inv(TransitionTo(off.(sense := t), OpenStart))
    {
      SenseIsFree(off, t);
      FreeKeeps(off.(sense := t));
      MoveKeeps(off.(sense := t), OpenStart);
    }
    assert Inv(off.(sense := s.(lastDetect := 0)));
    assert Inv(off.(sense := s.(lastDetect := off.Now())));
    assert Inv(off.(sense := s));
    assert Inv(TransitionTo(off.(sense := s.(lastDetect := 0)), OpenStart));
  }

  lemma TickStrokeKeeps(l: Lid, open: bool, env: Env)
    requires Free(l)
    ensures
      var next := if open then Opening else Closing;
      Inv(TransitionTo(SetRelays(l, true, open, !open, env), next))
  {
    hide SafeLog, Pinned, SetRelays, TransitionTo, WellFormed;
    StrokeWired(l, open, env);
    MoveKeeps(SetRelays(l, true, open, !open, env), if open then Opening else Closing);
  }

  lemma DriveIsFree(l: Lid, opens: nat, closes: nat)
    requires Free(l)
    ensures Free(l.(drive := l.drive.(openStalls := opens, closeStalls := closes)))
  {
  }

  lemma TickOpeningKeeps(l: Lid, env: Env)
    requires Free(l) && l.state == Opening
    ensures Inv(TickOpening(l, env))
  {
    hide SafeLog, Pinned, AllOff, ForceOff, TransitionTo, Free, Wired, Metered, Charging;
    forall n: nat | true
      ensures
        var d := l.(drive := l.drive.(openStalls := n));
        && Inv(d) && Inv(TransitionTo(ForceOff(d), Hold))
        && Inv(TransitionTo(AllOff(d, env), Hold)) && Inv(TransitionTo(AllOff(d, env), Maintenance))
    {
      var d := l.(drive := l.drive.(openStalls := n));
      DriveIsFree(l, n, l.drive.closeStalls);
      FreeKeeps(d);
      IsolatedIsFree(d);
      OffIsFree(d, env);
      MoveKeeps(ForceOff(d), Hold);
      MoveKeeps(AllOff(d, env), Hold);
      MoveKeeps(AllOff(d, env), Maintenance);
    }
  }

  lemma TickHoldKeeps(l: Lid, env: Env)
    requires Free(l) && l.state == Hold
    ensures Inv(TickHold(l, env))
  {
    hide SafeLog, Pinned, AllOff, TransitionTo, Wired, Metered, Charging, Free;
    OffIsFree(l, env);
    var off := AllOff(l, env);
    SenseIsFree(off, off.sense.(deadlock := true));
    MoveKeeps(off.(sense := off.sense.(deadlock := true)), CloseStart);
    var timed := off.(stateTimer := off.Now());
    TimerIsFree(off);
    FreeKeeps(off);
    FreeKeeps(timed);
    MoveKeeps(off, CloseStart);
    MoveKeeps(timed, CloseStart);
  }

  lemma TimerIsFree(l: Lid)
    requires Free(l)
    ensures Free(l.(stateTimer := l.Now()))
  {
  }

  lemma TickClosingKeeps(l: Lid, env: Env)
    requires Free(l) && l.state == Closing && !l.drive.lastOpen
    ensures Inv(TickClosing(l, env))
  {
    hide SafeLog, Pinned, AllOff, ForceOff, TransitionTo, Free, Wired, Metered, Charging;
    forall n: nat | true
      ensures
        var d := l.(drive := l.drive.(closeStalls := n));
        && Inv(d) && Inv(TransitionTo(ForceOff(d), EmergencyStop))
        && Inv(TransitionTo(AllOff(d, env), OpenStart))
        && (var off := AllOff(d, env);
            Inv(TransitionTo(off.(sense := off.sense.(cooling := true, cooldownTimer := off.Now(), blindStart := off.Now())), Idle)))
    {
      var d := l.(drive := l.drive.(closeStalls := n));
      DriveIsFree(l, l.drive.openStalls, n);
      FreeKeeps(d);
      IsolatedIsFree(d);
      OffIsFree(d, env);
      MoveKeeps(ForceOff(d), EmergencyStop);
      var off := AllOff(d, env);
      MoveKeeps(off, OpenStart);
      var s := off.sense.(cooling := true, cooldownTimer := off.Now(), blindStart := off.Now());
      SenseIsFree(off, s);
      MoveKeeps(off.(sense := s), Idle);
    }
  }

  lemma UnisolatedIsFree(l: Lid)
    requires Free(l) && !l.drive.lastOpen
    ensures Free(l.(drive := l.drive.(isolated := false)))
  {
  }

  lemma TickEmergencyKeeps(l: Lid)
    requires Free(l) && l.state == EmergencyStop && !l.drive.lastOpen
    ensures Inv(TickEmergency(l))
  {
    hide SafeLog, Pinned, ForceOff, TransitionTo, Free, Wired, Metered, Charging;
    IsolatedIsFree(l);
    var off := ForceOff(l);
    FreeKeeps(off);
    UnisolatedIsFree(off);
    var s := off.sense.(cooling := true, cooldownTimer := off.Now());
    var open := off.(drive := off.drive.(isolated := false), sense := s);
    SenseIsFree(off.(drive := off.drive.(isolated := false)), s);
    MoveKeeps(open, OpenStart);
    MoveKeeps(open, Idle);
  }

  lemma TickMaintenanceKeeps(l: Lid, env: Env)
    requires Free(l) && l.state == Maintenance
    ensures Inv(TickMaintenance(l, env))
  {
    hide SafeLog, Pinned, AllOff, TransitionTo, Wired, Metered, Charging, Free;
    OffIsFree(l, env);
    var off := AllOff(l, env);
    FreeKeeps(off);
    SenseIsFree(off, off.sense.(maintenanceRequested := false));
    MoveKeeps(off.(sense := off.sense.(maintenanceRequested := false)), CloseStart);
  }

  lemma InvSteers(l: Lid)
    requires Inv(l)
    ensures Steered(l)
  {
  }

  lemma RunStateKeeps(l: Lid, env: Env)
    requires Inv(l) && Free(l) && l.state != BatteryLowShutdown && l.state != OtaUpdating
    ensures Inv(RunState(l, env))
  {
    hide Inv, Free, TickStartup, TickIdle, TickOpening, TickHold, TickClosing, TickEmergency, TickMaintenance,
         SetRelays, TransitionTo;
    InvSteers(l);
    match l.state
    case StartupOpen => TickStartupKeeps(l, env);
    case Idle => TickIdleKeeps(l, env);
    case OpenStart => TickStrokeKeeps(l, true, env);
    case Opening => TickOpeningKeeps(l, env);
    case Hold => TickHoldKeeps(l, env);
    case CloseStart => TickStrokeKeeps(l, false, env);
    case Closing => TickClosingKeeps(l, env);
    case EmergencyStop => TickEmergencyKeeps(l);
    case Maintenance => TickMaintenanceKeeps(l, env);
    case BatteryLowShutdown =>
    case OtaUpdating =>
  }

  lemma UpdateKeeps(l: Lid, env: Env)
    requires Inv(l)
    ensures Inv(Update(l, env))
    ensures l.charge.active ==> Update(l, env) == ServicePower(l, env).lid
    ensures l.state == OtaUpdating ==> Update(l, env) == ServicePower(l, env).lid
  {
    hide SafeLog, Pinned, ServicePower, RunState, Wired, Metered;
    ServicePowerKeeps(l, env);
    var s := ServicePower(l, env);
    if !s.done && s.lid.state != OtaUpdating {
      SenseIsFree(s.lid, Observed(s.lid, env.distance).sense);
      FreeKeeps(Observed(s.lid, env.distance));
      RunStateKeeps(Observed(s.lid, env.distance), env);
    }
  }

  // ---- Commands ----

  lemma CommandIsFree(l: Lid)
    requires Inv(l) && !l.policy.latch.held && l.state != BatteryLowShutdown
    ensures Free(l)
  {
  }

  lemma CommandsKeep(l: Lid)
    requires Inv(l)
    ensures Inv(ForceOpen(l)) && Inv(ForceClose(l)) && Inv(ResetEmergency(l))
  {
    hide SafeLog, Pinned, TransitionTo, TakeSnapshot, Free, Wired, Metered, Charging;
    HeldIsShown(l);
    if l.Power().actuationAllowed && l.state != BatteryLowShutdown && l.state != OtaUpdating {
      CommandIsFree(l);
      var open := l.sense.(deadlock := false, cooling := false, deadlockClear := 0);
      SenseIsFree(l, open);
      SenseIsFree(l, open.(maintenanceRequested := false));
      if l.state != EmergencyStop {
        ResumeKeeps(l, open, OpenStart);
        ResumeKeeps(l, open.(maintenanceRequested := false), CloseStart);
      } else {
        UnisolatedIsFree(l);
        var s := l.sense.(cooling := true, cooldownTimer := l.Now());
        SenseIsFree(l.(drive := l.drive.(isolated := false)), s);
        StateIsFree(l.(drive := l.drive.(isolated := false), sense := s), Idle);
        FreeKeeps(l.(drive := l.drive.(isolated := false), sense := s, state := Idle));
      }
    }
  }

  lemma StateIsFree(l: Lid, s: FsmState)
    requires Free(l)
    ensures Free(l.(state := s))
  {
  }

  /** A command hands over to a motion state, or to a state reached with the main relay off. */
  lemma ResumeKeeps(l: Lid, s: Sense, next: FsmState)
    requires Inv(l) && Free(l.(sense := s)) && l.state != BatteryLowShutdown
    requires Motional(next) || !l.InMotion()
    requires next == OpenStart || next == CloseStart || next == Maintenance
    ensures Inv(TransitionTo(l.(sense := s), next))
  {
    hide SafeLog, Pinned, TransitionTo, Free, Wired, Metered, Charging;
    MoveKeeps(l.(sense := s), next);
  }

  lemma StartMaintenanceKeeps(l: Lid)
    requires Inv(l)
    ensures Inv(StartMaintenance(l))
  {
    hide SafeLog, Pinned, TransitionTo, TakeSnapshot, Wired, Metered, Charging, Free;
    HeldIsShown(l);
    var s := l.sense.(maintenanceRequested := true);
    SenseKeeps(l, s);
    if !l.policy.latch.held && l.state != BatteryLowShutdown && l.state != OtaUpdating {
      CommandIsFree(l);
      SenseIsFree(l, s);
      ResumeKeeps(l, s, OpenStart);
      if !l.InMotion() { ResumeKeeps(l, s, Maintenance); }
    }
  }

  lemma StopMaintenanceKeeps(l: Lid)
    requires Inv(l)
    ensures Inv(StopMaintenance(l))
  {
    hide SafeLog, Pinned, TransitionTo, Wired, Metered, Charging, Free;
    var s := l.sense.(maintenanceRequested := false);
    SenseKeeps(l, s);
    if l.state == Maintenance {
      CommandIsFree(l);
      SenseIsFree(l, s);
      ResumeKeeps(l, s, CloseStart);
    }
  }

  lemma SenseKeeps(l: Lid, s: Sense)
    requires Inv(l)
    ensures Inv(l.(sense := s))
  {
  }

  // ---- Charging close ----

  /** A charging close about to drive the relays. */
  predicate Beginning(b: Lid) {
    && Wired(b) && Metered(b) && Owned(b)
    && b.state == BatteryLowShutdown && b.bus.pins.nvs.Durable()
    && b.charge.active && b.charge.used && b.charge.result == Running && b.charge.ttl <= CHARGE_TTL_MS
    && !b.drive.lowBatteryOpening
    && b.policy.latch.held && !b.policy.latch.recovery.on
    && b.charge.requestAt == b.policy.sampleAt && 0 < b.charge.ttl
    && b.bus.pins.closes == 0 && Steered(b)
  }

  /** The second look: either the close is over and everything is isolated, or the
      reading it rests on has just been taken and is safe. */
  lemma RecheckKeeps(s: Lid, r: Reading)
    requires Joined(s) && Metered(s) && Owned(s)
    requires s.state == BatteryLowShutdown && s.bus.pins.nvs.Durable()
    requires s.charge.active && s.charge.used && s.charge.result == Running
    requires s.policy.latch.held && ChargeClock(s.charge, s.policy) && !s.drive.lowBatteryOpening
    ensures
      var l := Rechecked(s, r);
      && l.charge.used
      && (!l.charge.active ==> Inv(l) && l.policy.latch.held && l.drive.isolated)
      && (l.charge.active ==>
            && l == ReadSensors(s, r) && l.policy.latch.held && ChargeClock(l.charge, l.policy)
            && ClosingSafe(r, s.config.voltageShutdownLimit))
  {
    hide SafeLog, Pinned, StopCharging, Sampled, ReadSensors, WellFormed;
    ReadWired(s, r);
    ChargeSample(s.charge, s.policy, s.Now(), r.voltage, r.ok && r.current.Fin?, s.config.voltageShutdownLimit);
    var l := ReadSensors(s, r);
    StopChargingKeeps(l, BadSensor);
    StopChargingKeeps(l, LowVoltage);
    StopChargingKeeps(l, Expired);
  }

  lemma ChargeStrokeKeeps(b: Lid, env: Env)
    requires Beginning(b)
    ensures
      var l := SetRelays(b, true, false, true, env);
      Inv(l) && l.policy.latch.held && l.charge.used && (!l.charge.active ==> l.drive.isolated)
  {
    hide SafeLog, Pinned, SwitchDirection, Rechecked, ReadSensors, NextPolicy, WellFormed;
    var s := b;
    if DirectionChanges(b, true, false, true) {
      SwitchWired(b, true, false, true, env.slackA, env.slackB);
      s := SwitchDirection(b, true, false, true, env.slackA, env.slackB);
    }
    RecheckKeeps(s, env.reread);
    ReadWired(s, env.reread);
    var r := Rechecked(s, env.reread);
    if r.charge.active {
      EmitLogged(r, MainOn(Purpose.ChargingClose));
    }
  }

  lemma BegunWired(l: Lid, ttl: u32)
    requires Wired(l)
    ensures
      var b := ChargeBegun(l, ttl);
      Wired(b) && b.bus.pins == l.bus.pins.(at := l.clock) && b.clock == l.clock && b.drive == l.drive.(lowBatteryOpening := false)
  {
    hide SafeLog, Pinned, Rearmed;
    RearmWired(l.(
      charge := l.charge.(used := true, active := true, result := Running, requestAt := l.Now(), ttl := ttl, stalls := 0),
      drive := l.drive.(lowBatteryOpening := false),
      sense := l.sense.(maintenanceRequested := false, calibration := false)));
  }

  lemma RequestKeeps(l: Lid, ttl: u32, env: Env)
    requires Inv(l)
    ensures Inv(RequestChargingClose(l, ttl, env))
  {
    hide SafeLog, Pinned, SetRelays, Sampled, ReadSensors, ChargingPowerSafe, WellFormed;
    if ChargeRequestable(l, ttl) {
      ReadWired(l, env.reading);
      var r := ReadSensors(l, env.reading);
      if ChargeAdmitted(r) {
        var b := ChargeBegun(r, ttl);
        RestoredWellFormed(r.policy);
        BegunWired(r, ttl);
        ChargeStrokeKeeps(b, env);
      }
    }
  }

  lemma RestoredWellFormed(p: Policy)
    requires WellFormed(p)
    ensures WellFormed(Restored(p))
  {
    StepsKeepWellFormed(p, 0, NaN, false, NaN);
  }

  // ---- Updates ----

  lemma TryBeginKeeps(l: Lid, recovery: bool, maintenance: bool)
    requires Inv(l)
    ensures Inv(TryBeginOta(l, recovery, maintenance))
  {
    hide SafeLog, Pinned, ForceOff, TransitionTo, TakeSnapshot, WellFormed;
    if CanStartOta(l, recovery, maintenance) {
      ForceOffWired(l);
      var off := ForceOff(l);
      var special := recovery || maintenance;
      TransitionWired(off.(ota := Reservation(recovery, maintenance, off.ota.used || special,
                                              if special then off.Now() else off.ota.at)), OtaUpdating);
    }
  }

  lemma FinishKeeps(l: Lid)
    requires Inv(l)
    ensures
      var l' := FinishOta(l);
      && Inv(l') && l'.drive.isolated && l'.policy.latch.held == l.policy.latch.held
      && l'.state == if l.policy.latch.held then BatteryLowShutdown else Idle
  {
    hide SafeLog, Pinned, ForceOff, TransitionTo, WellFormed, Rearmed;
    var o := l.(ota := l.ota.(recovery := false, maintenance := false));
    ForceOffWired(o);
    var off := ForceOff(o);
    var f := off.(drive := off.drive.(lowBatteryOpening := false));
    RestoredWellFormed(f.policy);
    if l.policy.latch.held {
      RearmWired(f);
      TransitionWired(Rearmed(f), BatteryLowShutdown);
    } else {
      TransitionWired(f, Idle);
    }
  }

  // ---- Every operation, every run ----

  lemma PerformKeeps(l: Lid, op: Op)
    requires Inv(l)
    ensures Inv(Perform(l, op))
  {
    hide SafeLog, Pinned, Update, ServicePower, ForceOpen, ForceClose, ResetEmergency, StartMaintenance,
         StopMaintenance, RequestChargingClose, TryBeginOta, FinishOta, WellFormed;
    match op
    case Advance(_) =>
    case Tick(env) => UpdateKeeps(l, env);
    case OtaPower(env) => ServicePowerKeeps(l, env);
    case CmdOpen => CommandsKeep(l);
    case CmdClose => CommandsKeep(l);
    case CmdReset => CommandsKeep(l);
    case CmdMaintain => StartMaintenanceKeeps(l);
    case CmdEndMaintain => StopMaintenanceKeeps(l);
    case Configure(_) =>
    case CloseForCharging(ttl, env) => RequestKeeps(l, ttl, env);
    case BeginUpdate(recovery, maintenance) => TryBeginKeeps(l, recovery, maintenance);
    case EndUpdate => FinishKeeps(l);
  }

  lemma BootKeeps(nvs: Nvs, clock: nat, config: Config, r: Reading)
    ensures
      var l := Boot(nvs, clock, config, r);
      && Inv(l) && !l.charge.used && !l.ota.used && l.bus.pins.nvs == nvs
      && (nvs.Durable() <==> l.state == BatteryLowShutdown) && (nvs.Durable() <==> l.policy.latch.held)
      && !l.bus.pins.mainOn
  {
    hide ReadSensors, WellFormed;
    InitialWellFormed();
    RestoredWellFormed(INITIAL);
    var l := PowerOn(nvs, clock, config);
    ReadWired(l, r);
    FirstSampleKeepsLatch(l.policy, l.Now(), r.voltage, r.ok && r.current.Fin?, config.voltageShutdownLimit);
  }

  lemma FirstSampleKeepsLatch(p: Policy, now: u32, voltage: Float, ok: bool, limit: Float)
    requires !p.sampled && !p.latch.low.on && !p.latch.recovery.on
    ensures Sampled(p, now, voltage, ok, limit).latch.held == p.latch.held
  {
  }

  lemma {:induction false} RunKeeps(l: Lid, ops: seq<Op>)
    requires Inv(l)
    ensures Inv(RunOps(l, ops))
    decreases |ops|
  {
    hide Inv, Perform;
    if ops != [] {
      PerformKeeps(l, ops[0]);
      RunKeeps(Perform(l, ops[0]), ops[1..]);
    }
  }
}
