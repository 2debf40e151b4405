/** When the protective stroke is made. */
module LidProtection {
  import opened Numeric
  import opened BatteryPolicy
  import opened BatteryHistory
  import opened BatteryLatch
  import opened Gpio
  import opened Lid
  import opened LidWiring
  import opened LidInvariant
  import opened LidLifecycles
  import opened LidDirections
  import opened LidRecord
  import opened LidAdmission
  import opened LidTimes

  /** A sample that sets the latch is usable and low, and displays as protected. */
  lemma LatchingSample(p: Policy, now: u32, voltage: Float, ok: bool, limit: Float)
    requires !p.latch.held
    ensures
      var p' := Sampled(p, now, voltage, ok, limit);
      p'.latch.held ==>
        p'.valid && p'.sampled && p'.sampleAt == now && p'.display.state == Protected && Usable(voltage, ok) &&
        voltage.r <= Cutoff(limit)
  {
  }

  /** So protection is always entered on a reading of this moment that calls for its stroke. */
  lemma EntryIsCritical(l: Lid, r: Reading)
    requires Inv(l) && !l.policy.latch.held && PeriodicRead(l, r).policy.latch.held
    ensures
      var m := PeriodicRead(l, r);
      && m.Power().valid && m.Power().state == Protected && m == ReadSensors(l, r)
      && Usable(r.voltage, r.ok && r.current.Fin?) && r.voltage.r <= Cutoff(l.config.voltageShutdownLimit)
  {
    hide SafeLog, Pinned, Sampled, Wired, Bus.Do;
    LatchingSample(l.policy, l.Now(), r.voltage, r.ok && r.current.Fin?, l.config.voltageShutdownLimit);
  }

  /** How long the entry takes: nothing if the lid is being opened already. */
  function EntryDelay(l: Lid, env: Env): nat {
    if l.drive.lastOpen && !l.drive.isolated then 0 else 2 * CONTACT_MS + env.slackA + env.slackB
  }

  lemma EntryStroke(l: Lid, env: Env)
    requires Wired(l) && Owned(l) && !l.charge.active && l.policy.latch.held && l.bus.pins.strokes == 0
    requires l.Power().valid && l.Power().state == Protected
    ensures
      var m := EnterProtection(l, env);
      && m.state == BatteryLowShutdown && m.drive.lowBatteryOpening && m.stateTimer == l.Now()
      && m.clock == l.clock + EntryDelay(l, env) && m.config == l.config && m.policy == l.policy
      && Driven(m.bus.pins) && !m.bus.pins.aHigh && m.bus.pins.bHigh && Wired(m)
  {
    hide SafeLog, Pinned, TransitionTo, SetRelays, TakeSnapshot;
    var m := l.(drive := l.drive.(lowBatteryOpening := true));
    TransitionWired(m, BatteryLowShutdown);
    var t := TransitionTo(m, BatteryLowShutdown);
    StrokeWired(t, true, env);
    StrokeDelay(t, env);
  }

  lemma StrokeDelay(l: Lid, env: Env)
    requires Wired(l) && !l.charge.active
    ensures SetRelays(l, true, true, false, env).clock == l.clock + EntryDelay(l, env)
  {
    hide Bus.Do, SafeLog, Pinned;
  }

  /** From any state outside protection and updates: a tick enters protection exactly when
      its reading leaves the latch held. Then that reading is of this moment, usable and at or
      below the cutoff, and main is on with exactly the opening direction driven, unless the
      actuator time is over with the contact delays already: then every pin is in INPUT. */
  lemma ProtectionOpensExactly(l: Lid, env: Env)
    requires Good(l) && l.state != BatteryLowShutdown && l.state != OtaUpdating
    ensures
      var l' := Update(l, env);
      var h, p := BatteryOf(l'), l'.bus.pins;
      && (l'.state == BatteryLowShutdown <==> Held(h))
      && (Held(h) ==>
            && l'.clock == l.clock + EntryDelay(l, env) && l'.policy.latch.held
            && Usable(env.reading.voltage, env.reading.ok && env.reading.current.Fin?)
            && env.reading.voltage.r <= Cutoff(l.config.voltageShutdownLimit)
            && (if Counted(EntryDelay(l, env)) < l.config.actuatorTime
                then Driven(p) && !p.aHigh && p.bHigh
                else AllInput(p)))
  {
    hide Inv, Remembered, PeriodicRead, SuperviseCharge, EnterProtection, LeaveProtection, ForceOff, TakeSnapshot, RunState,
         Held, EntryDelay, Protect, Counted, Observed;
    InvCharge(l);
    FreeOutside(l);
    GoodKeeps(l, Tick(env));
    UpdateIsPerform(l, env);
    TickPolicy(l, env);
    GoodAdmits(Update(l, env));
    var r := PeriodicRead(l, env.reading);
    HeldIsShown(r);
    if r.policy.latch.held {
      EntryIsCritical(l, env.reading);
      ReadKeepsEntry(l, env);
      EntryStroke(r, env);
      StrokeKept(EnterProtection(r, env), l.clock);
    } else {
      NotEntered(l, env);
    }
  }

  lemma FreeOutside(l: Lid)
    requires Inv(l) && l.state != BatteryLowShutdown && l.state != OtaUpdating
    ensures !l.policy.latch.held
  {
  }

  lemma ReadKeepsEntry(l: Lid, env: Env)
    requires Inv(l) && !l.policy.latch.held
    ensures
      var r := PeriodicRead(l, env.reading);
      && Wired(r) && Owned(r) && r.bus.pins.strokes == 0 && EntryDelay(r, env) == EntryDelay(l, env)
  {
    hide SafeLog, Pinned, PeriodicRead, Wired, Metered, Charging;
    PeriodicReadKeeps(l, env.reading);
  }

  /** The rest of the entering tick. */
  lemma StrokeKept(l: Lid, began: nat)
    requires Wired(l) && l.drive.lowBatteryOpening && l.stateTimer == Wrap(began) && began <= l.clock
    ensures
      var l' := Protect(l, true);
      && l'.clock == l.clock && l'.state == l.state && l'.policy == l.policy
      && (if Counted(l.clock - began) < l.config.actuatorTime then l' == l else AllInput(l'.bus.pins))
  {
    hide SafeLog, Pinned, ForceOff;
    SinceIsElapsed(l.clock, began);
    ForceOffWired(l.(drive := l.drive.(lowBatteryOpening := false)));
  }

  lemma NotEntered(l: Lid, env: Env)
    requires Inv(l) && l.state != BatteryLowShutdown && l.state != OtaUpdating
    requires !PeriodicRead(l, env.reading).policy.latch.held
    ensures Update(l, env).state != BatteryLowShutdown
  {
    hide Inv, PeriodicRead, RunState, Observed, TakeSnapshot, SuperviseCharge, EnterProtection, LeaveProtection, Protect;
    InvCharge(l);
    TickPolicy(l, env);
    HeldIsShown(PeriodicRead(l, env.reading));
    SensedSame(l, env);
    RunLeavesProtection(Observed(PeriodicRead(l, env.reading), env.distance), env);
  }

  /** In any run: three seconds of low readings end with the lid being opened, from whatever
      state, as long as the actuator time outlasts the contact delays. */
  lemma LowBatteryOpens(
      nvs: Nvs, clock: nat, config: Config, first: Reading, ops: seq<Op>, env: Env, i: nat)
    requires
      var l := RunOps(Boot(nvs, clock, config, first), ops);
      var h := BatteryOf(Update(l, env));
      && l.state != BatteryLowShutdown && l.state != OtaUpdating
      && BatteryHistory.Timed(h) && Run(h, i, Falling) && Last(h).at - h[i].at >= LATCH_MS
      && EntryDelay(l, env) < l.config.actuatorTime
    ensures
      var l' := Update(RunOps(Boot(nvs, clock, config, first), ops), env);
      l'.state == BatteryLowShutdown && Driven(l'.bus.pins) && !l'.bus.pins.aHigh && l'.bus.pins.bHigh
  {
    hide Boot, RunOps, Update, Inv, Remembered, BatteryHistory.Timed, Run, Held, EntryDelay;
    LogTellsBattery(nvs, clock, config, first, ops);
    var l := RunOps(Boot(nvs, clock, config, first), ops);
    LowRunLatches(BatteryOf(Update(l, env)), i);
    ProtectionOpensExactly(l, env);
  }
}
