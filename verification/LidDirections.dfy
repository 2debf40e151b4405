/** When an energised main relay really drives one direction, and when it does not. */
module LidDirections {
  import opened Numeric
  import opened BatteryPolicy
  import opened DistanceFilter
  import opened Gpio
  import opened Lid
  import opened LidWiring
  import opened LidInvariant

  lemma ServedWithoutProtection(l: Lid, env: Env)
    requires Inv(l) && !ServicePower(l, env).done
    ensures
      var s := ServicePower(l, env).lid;
      && s == PeriodicRead(l, env.reading) && !s.policy.latch.held && !s.charge.active && Wired(s)
      && s.drive == l.drive && s.state == l.state && s.bus.pins.aMode == l.bus.pins.aMode
      && s.bus.pins.strokes == 0
  {
    hide SafeLog, Pinned, PeriodicRead, SuperviseCharge, Protect, EnterProtection, LeaveProtection, ForceOff, TakeSnapshot;
    PeriodicReadKeeps(l, env.reading);
    PeriodicReadModes(l, env.reading);
    HeldIsShown(PeriodicRead(l, env.reading));
  }

  lemma PeriodicReadModes(l: Lid, r: Reading)
    ensures PeriodicRead(l, r).bus.pins.aMode == l.bus.pins.aMode
  {
    hide NextPolicy;
  }

  /** A close that will find its direction pins undriven: the last stroke closed, and an
      emergency stop after it was given free without driving the pins again. */
  predicate Undriven(l: Lid) {
    l.state == CloseStart && l.drive.lastClose && !l.drive.isolated && l.bus.pins.aMode == Input
  }

  /** A tick in a starting state either begins its stroke, driving the wanted direction
      unless the test above, made before the tick, says otherwise, or it enters protection
      and then drives the opening direction if it drives at all. */
  lemma StartDrivesExactly(l: Lid, env: Env)
    requires Inv(l) && (l.state == OpenStart || l.state == CloseStart)
    ensures
      var open := l.state == OpenStart;
      var l' := Update(l, env);
      var p := l'.bus.pins;
      if ServicePower(l, env).done then
        l'.state == BatteryLowShutdown && (p.mainOn ==> Driven(p) && !p.aHigh)
      else
        && l'.state == (if open then Opening else Closing)
        && p.mainOn && p.aHigh == !open && p.bHigh == open
        && (Driven(p) <==> !Undriven(l))
  {
    hide SafeLog, Pinned, ServicePower, SetRelays, TransitionTo, PeriodicRead;
    if ServicePower(l, env).done {
      StartIsTaken(l, env);
    } else {
      ServedWithoutProtection(l, env);
      var o := Observed(ServicePower(l, env).lid, env.distance);
      var open := l.state == OpenStart;
      StrokeWired(o, open, env);
      TransitionWired(SetRelays(o, true, open, !open, env), if open then Opening else Closing);
    }
  }

  /** The power service takes a starting tick only to enter protection. */
  lemma StartIsTaken(l: Lid, env: Env)
    requires Inv(l) && (l.state == OpenStart || l.state == CloseStart) && ServicePower(l, env).done
    ensures
      var l' := Update(l, env);
      l'.state == BatteryLowShutdown && (l'.bus.pins.mainOn ==> Driven(l'.bus.pins) && !l'.bus.pins.aHigh)
  {
    hide SafeLog, Pinned, PeriodicRead, EnterProtection, Protect, SuperviseCharge, LeaveProtection, TakeSnapshot, Safe;
    PeriodicReadKeeps(l, env.reading);
    var r := PeriodicRead(l, env.reading);
    HeldIsShown(r);
    EntryDrives(r, env);
    ProtectionKeepsDirection(EnterProtection(r, env), r.Power().valid);
  }

  lemma EntryDrives(l: Lid, env: Env)
    requires Wired(l) && Metered(l) && Owned(l) && !l.charge.active
    requires l.policy.latch.held && l.bus.pins.strokes == 0
    ensures
      var l' := EnterProtection(l, env);
      l'.state == BatteryLowShutdown && (l'.bus.pins.mainOn ==> Driven(l'.bus.pins) && !l'.bus.pins.aHigh)
  {
    hide SafeLog, Pinned, TransitionTo, SetRelays, ForceOff, TakeSnapshot;
    var critical := l.Power().valid && l.Power().state == Protected;
    var m := l.(drive := l.drive.(lowBatteryOpening := critical));
    TransitionWired(m, BatteryLowShutdown);
    var t := TransitionTo(m, BatteryLowShutdown);
    if critical { StrokeWired(t, true, env); } else { OffIsOff(t); }
  }

  lemma OffIsOff(l: Lid)
    ensures !ForceOff(l).bus.pins.mainOn && ForceOff(l).state == l.state
  {
  }

  lemma ProtectionKeepsDirection(l: Lid, valid: bool)
    ensures
      var l' := Protect(l, valid);
      l'.state == l.state && (l'.bus.pins.mainOn ==> l'.bus.pins == l.bus.pins)
  {
    hide ForceOff;
    OffIsOff(l.(drive := l.drive.(lowBatteryOpening := false)));
  }

  // ---- A close after a stalled close ----

  const CONFIG := Config(50.0, 1000, 3800, 10000, 3000, Fin(11.0), Fin(3000.0), 5000, 180000)

  function Calm(): Env {
    Env(Reading(Fin(12.6), Fin(10.0), true), Reading(Fin(12.6), Fin(10.0), true), 999.0, 0, 0)
  }

  function Stall(): Env {
    Env(Reading(Fin(12.6), Fin(5000.0), true), Reading(Fin(12.6), Fin(5000.0), true), 999.0, 0, 0)
  }

  /** A battery that admits the motor. */
  predicate Charged(p: Policy) {
    !p.latch.held && p.admissionKnown && p.admissionVoltage == 12.6 && p.cutoff == 11.0
  }

  /** A healthy battery, nobody near, nothing special going on. */
  predicate Healthy(l: Lid) {
    && Inv(l) && l.config == CONFIG && Charged(l.policy)
    && l.sense.distance == FAR && l.sense.window == ALL_FAR
  }

  lemma StillFar()
    ensures Pushed(ALL_FAR, FAR) == ALL_FAR && Median(ALL_FAR) == FAR
  {
    MiddleIsMedian(ALL_FAR);
    MedianIsUnique(ALL_FAR, FAR);
  }

  /** A far reading changes nothing but the sensor's timers. */
  lemma FarReading(l: Lid)
    requires l.sense.distance == FAR && l.sense.window == ALL_FAR
    ensures
      var o := Observed(l, FAR);
      o == l.(sense := o.sense) && o.sense.distance == FAR && o.sense.window == ALL_FAR
  {
    hide TakeSnapshot, Median, Pushed;
    StillFar();
  }

  lemma HealthyPower(l: Lid)
    requires Healthy(l)
    ensures l.Power().actuationAllowed && !l.Power().protectedMode
  {
  }

  lemma HealthyRead(l: Lid, env: Env)
    requires Healthy(l) && (env == Calm() || env == Stall()) && l.state != BatteryLowShutdown && !l.charge.active
    ensures
      var s := ServicePower(l, env);
      && !s.done && Healthy(s.lid) && s.lid.clock == l.clock && s.lid.stateTimer == l.stateTimer
      && s.lid.state == l.state && s.lid.drive == l.drive && s.lid.sense == l.sense
      && s.lid.bus.pins.aMode == l.bus.pins.aMode && !s.lid.charge.active
      && (Since(l.Now(), l.lastPowerReading) >= 200 && l.InMotion() ==> s.lid.motorCurrent == env.reading.current)
      && s.lid.lastPowerReading in {l.lastPowerReading, l.Now()}
  {
    hide SafeLog, Pinned, Sampled, SuperviseCharge, Protect, EnterProtection, LeaveProtection, ForceOff, Inv, TakeSnapshot;
    ServicePowerKeeps(l, env);
    HealthySample(l.policy, l.Now(), l.config.voltageShutdownLimit);
    InvParts(l);
    PeriodicReadModes(l, env.reading);
    var r := PeriodicRead(l, env.reading);
    HealthyPolicyPower(r);
  }

  lemma InvParts(l: Lid)
    requires Inv(l)
    ensures l.policy.sampled && WellFormed(l.policy)
    ensures l.state == OtaUpdating ==> l.drive.isolated
  {
  }

  lemma HealthyPolicyPower(l: Lid)
    requires Charged(l.policy)
    ensures l.Power().actuationAllowed && !l.Power().protectedMode
  {
  }

  lemma HealthySample(p: Policy, now: u32, limit: Float)
    requires !p.latch.held && limit == Fin(11.0)
    ensures
      var p' := Sampled(p, now, Fin(12.6), true, limit);
      Charged(p')
  {
    hide Shown;
  }

  lemma Pause(l: Lid, ms: nat)
    requires Healthy(l)
    ensures
      var l' := Perform(l, Advance(ms));
      Healthy(l') && l' == l.(clock := l.clock + ms)
  {
    hide Inv;
    PerformKeeps(l, Advance(ms));
  }

  lemma OrderClose(l: Lid)
    requires Healthy(l) && l.state == Idle
    ensures
      var l' := Perform(l, CmdClose);
      && Healthy(l') && l'.state == CloseStart && l'.clock == l.clock && l'.lastPowerReading == l.lastPowerReading
      && l'.drive == l.drive.(openStalls := 0, closeStalls := 0) && l'.bus.pins.aMode == l.bus.pins.aMode
  {
    hide Inv, TakeSnapshot;
    PerformKeeps(l, CmdClose);
    HealthyPower(l);
  }

  lemma StartClosing(l: Lid)
    requires Healthy(l) && l.state == CloseStart
    ensures
      var l' := Perform(l, Tick(Calm()));
      && Healthy(l') && l'.state == Closing && l.clock <= l'.clock <= l.clock + 200 && l'.stateTimer == l'.Now()
      && l'.drive.lastClose && !l'.drive.lastOpen && l'.drive.closeStalls == 0 && !l'.drive.isolated
      && l'.lastPowerReading in {l.lastPowerReading, l.Now()}
      && l'.bus.pins.mainOn
      && (Driven(l'.bus.pins) <==> !Undriven(l))
  {
    hide Inv, ServicePower, TakeSnapshot, SetRelays, TransitionTo, SafeLog, Pinned, WellFormed, Observed;
    var env := Calm();
    InvCharge(l);
    HealthyRead(l, env);
    StartDrivesExactly(l, env);
    PerformKeeps(l, Tick(env));
    ServedWithoutProtection(l, env);
    FarReading(ServicePower(l, env).lid);
    var o := Observed(ServicePower(l, env).lid, env.distance);
    StrokeWired(o, false, env);
    StrokeTime(o, env);
    TransitionWired(SetRelays(o, true, false, true, env), Closing);
  }

  lemma StrokeTime(l: Lid, env: Env)
    requires !l.charge.active && env == Calm()
    ensures SetRelays(l, true, false, true, env).clock <= l.clock + 200
  {
    hide Bus.Do;
  }

  lemma InvCharge(l: Lid)
    requires Inv(l) && l.state != BatteryLowShutdown
    ensures !l.charge.active
  {
  }

  lemma StallTick(l: Lid)
    requires Healthy(l) && l.state == Closing
    requires 500 < Since(l.Now(), l.stateTimer) < 3800 && Since(l.Now(), l.lastPowerReading) >= 200
    ensures
      var l' := Perform(l, Tick(Stall()));
      && Healthy(l') && l'.clock == l.clock
      && (if l.drive.closeStalls < 2 then
            && l'.state == Closing && l'.drive == l.drive.(closeStalls := l.drive.closeStalls + 1)
            && l'.stateTimer == l.stateTimer && l'.lastPowerReading == l.Now()
          else
            && l'.state == EmergencyStop && l'.bus.pins.aMode == Input
            && l'.drive.lastOpen == l.drive.lastOpen && l'.drive.lastClose == l.drive.lastClose)
  {
    hide Inv, ServicePower, TakeSnapshot, ForceOff, TransitionTo, AllOff, SafeLog, Pinned, WellFormed, Observed;
    var env := Stall();
    InvCharge(l);
    HealthyRead(l, env);
    PerformKeeps(l, Tick(env));
    ReadDue(l, env);
    ServedWithoutProtection(l, env);
    FarReading(ServicePower(l, env).lid);
    var o := Observed(ServicePower(l, env).lid, env.distance);
    var d := o.(drive := o.drive.(closeStalls := 0));
    ForceOffWired(d);
    TransitionWired(ForceOff(d), EmergencyStop);
  }

  lemma ReadDue(l: Lid, env: Env)
    requires Healthy(l) && env == Stall() && l.state == Closing && Since(l.Now(), l.lastPowerReading) >= 200
    ensures ServicePower(l, env).lid.lastPowerReading == l.Now()
  {
    hide SafeLog, Pinned, Sampled, SuperviseCharge, Protect, EnterProtection, LeaveProtection, ForceOff, TakeSnapshot;
    HealthySample(l.policy, l.Now(), l.config.voltageShutdownLimit);
    HealthyPolicyPower(PeriodicRead(l, env.reading));
    InvCharge(l);
  }

  lemma ResetAfterStall(l: Lid)
    requires Healthy(l) && l.state == EmergencyStop
    ensures
      var l' := Perform(l, CmdReset);
      && Healthy(l') && l'.state == Idle && l'.clock == l.clock && l'.bus == l.bus
      && l'.drive == l.drive.(isolated := false)
  {
    hide Inv, TakeSnapshot;
    PerformKeeps(l, CmdReset);
    HealthyPower(l);
  }

  lemma HealthyBoot()
    ensures
      var l := Boot(Nvs(false, false), 0, CONFIG, Calm().reading);
      && Healthy(l) && l.state == Idle && l.clock == 0 && l.lastPowerReading == 0 && !l.drive.lastClose
  {
    hide Inv, Sampled;
    var l := Boot(Nvs(false, false), 0, CONFIG, Calm().reading);
    BootKeeps(Nvs(false, false), 0, CONFIG, Calm().reading);
    HealthySample(INITIAL, 0, Fin(11.0));
  }

  lemma PauseThenStall(l: Lid, ms: nat)
    requires Healthy(l) && l.state == Closing
    requires 500 < Since(Wrap(l.clock + ms), l.stateTimer) < 3800
    requires Since(Wrap(l.clock + ms), l.lastPowerReading) >= 200
    ensures
      var l' := Perform(Perform(l, Advance(ms)), Tick(Stall()));
      && Healthy(l') && l'.clock == l.clock + ms
      && (if l.drive.closeStalls < 2 then
            && l'.state == Closing && l'.drive == l.drive.(closeStalls := l.drive.closeStalls + 1)
            && l'.stateTimer == l.stateTimer && l'.lastPowerReading == l'.Now()
          else
            && l'.state == EmergencyStop && l'.bus.pins.aMode == Input
            && l'.drive.lastOpen == l.drive.lastOpen && l'.drive.lastClose == l.drive.lastClose)
  {
    hide Perform, Healthy;
    Pause(l, ms);
    StallTick(Perform(l, Advance(ms)));
  }

  /** A close that meets three stalls in a row after its first half second. */
  lemma StallsThrice(l: Lid)
    requires Healthy(l) && l.state == Closing && l.clock <= 200 && l.stateTimer == l.Now() && l.lastPowerReading <= l.clock
    requires l.drive.lastClose && !l.drive.lastOpen && l.drive.closeStalls == 0
    ensures
      var once := Perform(Perform(l, Advance(600)), Tick(Stall()));
      var twice := Perform(Perform(once, Advance(200)), Tick(Stall()));
      var stopped := Perform(Perform(twice, Advance(200)), Tick(Stall()));
      && Healthy(stopped) && stopped.state == EmergencyStop && stopped.clock <= 1200
      && stopped.bus.pins.aMode == Input && stopped.drive.lastClose
  {
    hide Perform, Healthy;
    PauseThenStall(l, 600);
    var once := Perform(Perform(l, Advance(600)), Tick(Stall()));
    PauseThenStall(once, 200);
    var twice := Perform(Perform(once, Advance(200)), Tick(Stall()));
    PauseThenStall(twice, 200);
  }

  /** Resetting an emergency stop that ended a close, and closing again before the next
      tick, energises the main relay with both direction relays left undriven. */
  lemma ClosingAgainIsUndriven()
    ensures
      var booted := Boot(Nvs(false, false), 0, CONFIG, Calm().reading);
      var closing := Perform(Perform(booted, CmdClose), Tick(Calm()));
      var once := Perform(Perform(closing, Advance(600)), Tick(Stall()));
      var twice := Perform(Perform(once, Advance(200)), Tick(Stall()));
      var stopped := Perform(Perform(twice, Advance(200)), Tick(Stall()));
      var again := Perform(Perform(Perform(stopped, CmdReset), CmdClose), Tick(Calm()));
      stopped.state == EmergencyStop && again.state == Closing && again.bus.pins.mainOn && !Driven(again.bus.pins)
  {
    hide Perform, Boot, Healthy;
    HealthyBoot();
    var booted := Boot(Nvs(false, false), 0, CONFIG, Calm().reading);
    OrderClose(booted);
    StartClosing(Perform(booted, CmdClose));
    var closing := Perform(Perform(booted, CmdClose), Tick(Calm()));
    StallsThrice(closing);
    var once := Perform(Perform(closing, Advance(600)), Tick(Stall()));
    var twice := Perform(Perform(once, Advance(200)), Tick(Stall()));
    var stopped := Perform(Perform(twice, Advance(200)), Tick(Stall()));
    ResetAfterStall(stopped);
    OrderClose(Perform(stopped, CmdReset));
    StartClosing(Perform(Perform(stopped, CmdReset), CmdClose));
  }
}
