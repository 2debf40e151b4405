/** What each operation does to the controller's sensing and its timers. */
module LidSense {
  import opened Numeric
  import opened BatteryPolicy
  import opened DistanceFilter
  import opened Gpio
  import opened Lid
  import opened LidWiring
  import opened LidInvariant
  import opened LidLifecycles
  import opened LidDirections
  import opened LidReactions
  import opened ZeroTimer

  /** A tick that is left to the state machine while the lid is idle. */
  predicate LooksIdle(l: Lid, op: Op) {
    op.Tick? && l.state == Idle && !ServicePower(l, op.env).done
  }

  /** The controller as such a tick judges it, with the motor just switched off. */
  function Judged(l: Lid, env: Env): Lid {
    AllOff(Sensed(l, env), env)
  }

  /** Someone is near, by three of the last five readings, and not so near that the sensor
      is wet, and nothing speaks against opening. */
  predicate Invites(l: Lid) {
    var s := Healed(l.sense, l.config.distThreshold, l.Now());
    && !(s.blindStart != 0 && Since(l.Now(), s.blindStart) < 3000) && !s.cooling && !s.deadlock
    && Nearer(s.window, l.config.distThreshold) >= 3 && Within(s.window, 2.0) < 3
  }

  predicate Clear(l: Lid) {
    Within(l.sense.window, l.config.distThreshold) < 3
  }

  function Approach(l: Lid, env: Env): Look {
    Look(Judged(l, env).clock, Invites(Judged(l, env)))
  }

  function Clearing(l: Lid, env: Env): Look {
    Look(Judged(l, env).clock, Clear(Judged(l, env)))
  }

  /** The distance acted on is the median of the latest readings. */
  predicate Filtered(s: Sense) {
    s.distance == Median(s.window)
  }

  /** The deadlock timer runs only under a deadlock. */
  predicate Locked(s: Sense) {
    s.deadlockClear != 0 ==> s.deadlock
  }

  // ---- One look in the idle state ----

  lemma TransitionSense(l: Lid, next: FsmState)
    ensures
      var l' := TransitionTo(l, next);
      && l'.state == next && l'.clock == l.clock
      && l'.sense == l.sense.(lastDetect := 0, holdStart := if next == Hold then l.Now() else l.sense.holdStart)
  {
    hide Bus.Do;
  }

  /** Ten seconds of looks at a clear path end a deadlock. */
  lemma HealLook(s: Sense, threshold: real, at: nat)
    requires Filtered(s) && Locked(s)
    ensures
      var far := Look(at, Within(s.window, threshold) < 3);
      var s' := Healed(s, threshold, Wrap(at));
      && s' == s.(deadlock := s'.deadlock, deadlockClear := s'.deadlockClear) && Locked(s')
      && s'.deadlock == (s.deadlock && !Fires(s.deadlockClear, far, 10000))
      && s'.deadlockClear == (if s'.deadlock then Stepped(s.deadlockClear, far) else 0)
  {
    hide Median, Within;
    SeenByMajority(s.window, threshold);
  }

  /** What an idle look does, from the sense as it is judged. */
  lemma IdleLook(l: Lid, env: Env)
    requires Filtered(l.sense) && Locked(l.sense) && AllOff(l, env).sense == l.sense && AllOff(l, env).state == Idle
    ensures
      var off := AllOff(l, env);
      var l' := TickIdle(l, env);
      var near := Look(off.clock, Invites(off));
      && (l'.state == OpenStart <==> Fires(off.sense.lastDetect, near, off.config.debounceDelay))
      && (l'.state == OpenStart ==> l'.sense.lastDetect == 0)
      && (l'.state != OpenStart ==> l'.state == Idle && l'.sense.lastDetect == Stepped(off.sense.lastDetect, near))
      && (var s := Healed(off.sense, off.config.distThreshold, off.Now());
          && l'.sense.deadlock == s.deadlock && l'.sense.deadlockClear == s.deadlockClear)
      && l'.sense.distance == off.sense.distance && l'.sense.window == off.sense.window && l'.clock == off.clock
  {
    hide AllOff, Median, Within, Nearer, TransitionTo;
    var off := AllOff(l, env);
    NearByMajority(off.sense.window, off.config.distThreshold);
    SeenByMajority(off.sense.window, 2.0);
    HealLook(off.sense, off.config.distThreshold, off.clock);
    forall m: Lid, next
      ensures TransitionTo(m, next).state == next && TransitionTo(m, next).clock == m.clock
      ensures TransitionTo(m, next).sense ==
              m.sense.(lastDetect := 0, holdStart := if next == Hold then m.Now() else m.sense.holdStart)
    {
      TransitionSense(m, next);
    }
  }

  // ---- Everything else ----

  /** The state machine outside idle: it looks at nothing of the path. */
  predicate Soft(s: Sense, s': Sense) {
    && s' == s.(lastDetect := s'.lastDetect, holdStart := s'.holdStart, maintenanceRequested := s'.maintenanceRequested,
                calibration := s'.calibration, cooling := s'.cooling, cooldownTimer := s'.cooldownTimer,
                blindStart := s'.blindStart, deadlock := s'.deadlock)
    && (s'.lastDetect == s.lastDetect || s'.lastDetect == 0) && (s.deadlock ==> s'.deadlock)
  }

  /** What anything but an idle look does to the path timers. */
  predicate Loose(s: Sense, s': Sense) {
    && (s'.lastDetect == s.lastDetect || s'.lastDetect == 0)
    && (Filtered(s) ==> Filtered(s'))
    && ((s'.deadlockClear == s.deadlockClear && (s.deadlock ==> s'.deadlock)) || (s'.deadlockClear == 0 && !s'.deadlock))
  }

  lemma SoftIsLoose(s: Sense, s': Sense)
    requires Soft(s, s')
    ensures Loose(s, s')
  {
    hide Median;
  }

  lemma SwitchSense(l: Lid, mainOn: bool, open: bool, close: bool, slackA: nat, slackB: nat)
    ensures SwitchDirection(l, mainOn, open, close, slackA, slackB).sense == l.sense
  {
    hide Bus.Do;
  }

  lemma RecheckSense(l: Lid, r: Reading)
    ensures Rechecked(l, r).sense == l.sense
  {
    hide Bus.Do, NextPolicy, TakeSnapshot, Restored, ChargingPowerSafe;
  }

  lemma SetRelaysSense(l: Lid, mainOn: bool, open: bool, env: Env)
    ensures SetRelays(l, mainOn, open, mainOn && !open, env).sense == l.sense
  {
    hide Bus.Do, SwitchDirection, Rechecked, DirectionChanges;
    SwitchSense(l, mainOn, open, mainOn && !open, env.slackA, env.slackB);
    RecheckSense(l, env.reread);
    RecheckSense(SwitchDirection(l, mainOn, open, mainOn && !open, env.slackA, env.slackB), env.reread);
  }

  lemma RelaySense(l: Lid, env: Env)
    ensures AllOff(l, env).sense == l.sense && ForceOff(l).sense == l.sense
    ensures SetRelays(l, true, true, false, env).sense == l.sense
    ensures SetRelays(l, true, false, true, env).sense == l.sense
  {
    hide SetRelays, Bus.Do;
    SetRelaysSense(l, false, false, env);
    SetRelaysSense(l, true, true, env);
    SetRelaysSense(l, true, false, env);
  }

  lemma TransitionSoft(s: Sense, l: Lid)
    requires Soft(s, l.sense)
    ensures forall next :: Soft(s, TransitionTo(l, next).sense)
  {
    hide TransitionTo;
    forall next ensures Soft(s, TransitionTo(l, next).sense) { TransitionSense(l, next); }
  }

  lemma RestSoft(l: Lid, env: Env)
    ensures Soft(l.sense, TickStartup(l, env).sense) && Soft(l.sense, TickHold(l, env).sense)
    ensures Soft(l.sense, TickMaintenance(l, env).sense)
    ensures Soft(l.sense, TickOpenStart(l, env).sense) && Soft(l.sense, TickCloseStart(l, env).sense)
  {
    hide AllOff, SetRelays, TransitionTo, Sees;
    RelaySense(l, env);
    var off := AllOff(l, env);
    forall m: Lid, next | Soft(l.sense, m.sense) ensures Soft(l.sense, TransitionTo(m, next).sense) {
      TransitionSoft(l.sense, m);
    }
    assert Soft(l.sense, off.sense);
  }

  lemma OpeningSoft(l: Lid, env: Env)
    ensures Soft(l.sense, TickOpening(l, env).sense)
  {
    hide AllOff, ForceOff, TransitionTo, Stalled, Soft;
    SelfSoft(l.sense);
    forall m: Lid | m.sense == l.sense
      ensures AllOff(m, env).sense == l.sense && ForceOff(m).sense == l.sense
    {
      RelaySense(m, env);
    }
    forall m: Lid, next | Soft(l.sense, m.sense) ensures Soft(l.sense, TransitionTo(m, next).sense) {
      TransitionSoft(l.sense, m);
    }
  }

  lemma ClosingSoft(l: Lid, env: Env)
    ensures Soft(l.sense, TickClosing(l, env).sense)
  {
    hide AllOff, ForceOff, TransitionTo, Sees, Stalled, Soft, Closed;
    SelfSoft(l.sense);
    ClosedSoft(l.(drive := l.drive.(closeStalls := 0)), env);
    forall m: Lid | m.sense == l.sense
      ensures AllOff(m, env).sense == l.sense && ForceOff(m).sense == l.sense
    {
      RelaySense(m, env);
    }
    forall m: Lid, next | Soft(l.sense, m.sense) ensures Soft(l.sense, TransitionTo(m, next).sense) {
      TransitionSoft(l.sense, m);
    }
  }

  lemma ClosedSoft(l: Lid, env: Env)
    ensures Soft(l.sense, Closed(l, env).sense)
  {
    hide AllOff, TransitionTo;
    RelaySense(l, env);
    var off := AllOff(l, env);
    TransitionSoft(l.sense, off.(sense := off.sense.(cooling := true, cooldownTimer := off.Now(), blindStart := off.Now())));
  }

  lemma EmergencySoft(l: Lid)
    ensures Soft(l.sense, TickEmergency(l).sense)
  {
    hide ForceOff, TransitionTo, Sees;
    OffSense(l);
    forall m: Lid, next | Soft(l.sense, m.sense) ensures Soft(l.sense, TransitionTo(m, next).sense) {
      TransitionSoft(l.sense, m);
    }
  }

  lemma RunSoft(l: Lid, env: Env)
    requires l.state != Idle
    ensures Soft(l.sense, RunState(l, env).sense)
  {
    hide ForceOff, TickStartup, TickIdle, TickHold, TickMaintenance, TickOpenStart, TickCloseStart, TickOpening,
         TickClosing, TickEmergency, Soft;
    RestSoft(l, env);
    OpeningSoft(l, env);
    ClosingSoft(l, env);
    EmergencySoft(l);
    RelaySense(l, env);
    SelfSoft(l.sense);
  }

  lemma SelfSoft(s: Sense)
    ensures Soft(s, s)
  {
  }

  /** The power service: it leaves the sense alone, or enters or leaves protection. */
  lemma ServiceSense(l: Lid, env: Env)
    requires Inv(l)
    ensures
      var s := ServicePower(l, env).lid;
      || (s.sense == l.sense && (s.state == l.state || l.state == OtaUpdating))
      || (s.state == BatteryLowShutdown && l.state != BatteryLowShutdown && s.sense == l.sense.(lastDetect := 0))
      || (l.state == BatteryLowShutdown && s.state == Idle && s.sense.lastDetect == 0 && s.sense.deadlockClear == 0 &&
          !s.sense.deadlock && s.sense.distance == FAR && s.sense.window == ALL_FAR)
  {
    hide SafeLog, Pinned, PeriodicRead, SuperviseCharge, Protect, EnterProtection, LeaveProtection, ForceOff, TakeSnapshot,
         Wired, Metered, Charging;
    PeriodicReadKeeps(l, env.reading);
    var r := PeriodicRead(l, env.reading);
    SuperviseSense(r);
    RelaySense(r, env);
    OffState(r);
    ProtectSense(r, r.Power().valid);
    EnterSense(r, env);
    ProtectSense(EnterProtection(r, env), r.Power().valid);
    LeaveSense(r);
  }

  lemma OffState(l: Lid)
    ensures ForceOff(l).state == l.state
  {
  }

  lemma SuperviseSense(l: Lid)
    ensures SuperviseCharge(l).sense == l.sense && SuperviseCharge(l).state == l.state
  {
    hide Bus.Do, ChargingPowerSafe, TakeSnapshot, StallLimit, Float.Lt, Float.Abs, Restored;
  }

  lemma ProtectSense(l: Lid, valid: bool)
    ensures Protect(l, valid).sense == l.sense && Protect(l, valid).state == l.state
  {
    hide Bus.Do;
  }

  lemma EnterSense(l: Lid, env: Env)
    ensures !l.charge.active ==> EnterProtection(l, env).state == BatteryLowShutdown
    ensures EnterProtection(l, env).sense == l.sense.(lastDetect := 0)
  {
    hide SetRelays, ForceOff, TransitionTo, TakeSnapshot;
    if !l.charge.active { EnterFrame(l, env); }
    var critical := l.Power().valid && l.Power().state == Protected;
    var m := l.(drive := l.drive.(lowBatteryOpening := critical));
    TransitionSense(m, BatteryLowShutdown);
    RelaySense(TransitionTo(m, BatteryLowShutdown), env);
  }

  lemma LeaveSense(l: Lid)
    ensures
      var l' := LeaveProtection(l);
      && l'.state == Idle && l'.sense.lastDetect == 0 && l'.sense.deadlockClear == 0 && !l'.sense.deadlock
      && l'.sense.distance == FAR && l'.sense.window == ALL_FAR
  {
    hide ForceOff, TransitionTo;
    var off := ForceOff(l);
    TransitionSense(off.(drive := off.drive.(lowBatteryOpening := false),
                         sense := l.sense.(maintenanceRequested := false, calibration := false, deadlock := false,
                                           deadlockClear := 0, cooling := false, lastDetect := 0,
                                           distance := 999.0, window := ALL_FAR, blindStart := l.Now())), Idle);
  }

  lemma FarIsFiltered(s: Sense)
    requires s.distance == FAR && s.window == ALL_FAR
    ensures Filtered(s)
  {
    StillFar();
  }

  lemma ObservedSense(l: Lid, raw: real)
    ensures
      var s := Observed(l, raw).sense;
      && s == l.sense.(sensorTimer := s.sensorTimer, window := s.window, distance := s.distance, cooling := s.cooling)
      && (Filtered(l.sense) ==> Filtered(s)) && (s.cooling ==> l.sense.cooling)
      && Observed(l, raw).state == l.state && Observed(l, raw).config == l.config
  {
    hide TakeSnapshot, Median, Pushed;
  }

  /** A tick that is no idle look. From idle it either leaves the sense alone or leaves idle. */
  lemma TickLoose(l: Lid, env: Env)
    requires Inv(l) && !LooksIdle(l, Tick(env))
    ensures
      var l' := Update(l, env);
      && Loose(l.sense, l'.sense)
      && (l.state == Idle ==> if l'.state == Idle then l'.sense == l.sense else l'.sense.lastDetect == 0)
  {
    hide Inv, ServicePower, Observed, RunState, Median;
    ServiceSense(l, env);
    var s := ServicePower(l, env);
    ServicePowerKeeps(l, env);
    ServedState(l, env);
    if s.lid.sense.distance == FAR && s.lid.sense.window == ALL_FAR { FarIsFiltered(s.lid.sense); }
    if !s.done && s.lid.state != OtaUpdating {
      ObservedSense(s.lid, env.distance);
      RunSoft(Observed(s.lid, env.distance), env);
      SoftIsLoose(Observed(s.lid, env.distance).sense, RunState(Observed(s.lid, env.distance), env).sense);
    }
  }

  lemma ServedState(l: Lid, env: Env)
    requires Inv(l)
    ensures !ServicePower(l, env).done ==> ServicePower(l, env).lid.state == l.state && l.state != BatteryLowShutdown
  {
    hide Inv;
    ServicePowerKeeps(l, env);
  }

  // ---- Whole operations ----

  lemma CommandLoose(l: Lid, op: Op)
    requires op.CmdOpen? || op.CmdClose? || op.CmdReset? || op.CmdMaintain? || op.CmdEndMaintain?
    ensures
      var l' := Perform(l, op);
      && Loose(l.sense, l'.sense)
      && (l.state == Idle ==> l'.sense.lastDetect == if l'.state == Idle then l.sense.lastDetect else 0)
  {
    hide TransitionTo, TakeSnapshot, Median;
    forall m: Lid, next ensures
        && TransitionTo(m, next).state == next
        && TransitionTo(m, next).sense ==
           m.sense.(lastDetect := 0, holdStart := if next == Hold then m.Now() else m.sense.holdStart)
    {
      TransitionSense(m, next);
    }
  }

  lemma ChargeLoose(l: Lid, ttl: u32, env: Env)
    ensures
      var l' := RequestChargingClose(l, ttl, env);
      && Loose(l.sense, l'.sense) && l'.sense.lastDetect == l.sense.lastDetect
      && (l.state == Idle ==> l' == l)
  {
    hide Bus.Do, NextPolicy, SetRelays, ChargeAdmitted, Restored, Median;
    RelaySense(ChargeBegun(ReadSensors(l, env.reading), ttl), env);
  }

  lemma UpdateLoose(l: Lid, recovery: bool, maintenance: bool)
    ensures
      var b := TryBeginOta(l, recovery, maintenance);
      Loose(l.sense, b.sense) && (b == l || (b.state == OtaUpdating && b.sense.lastDetect == 0))
    ensures Loose(l.sense, FinishOta(l).sense) && FinishOta(l).sense.lastDetect == 0
  {
    hide CanStartOta, TransitionTo, ForceOff, Restored, Median;
    forall m: Lid, next ensures
        && TransitionTo(m, next).state == next
        && TransitionTo(m, next).sense ==
           m.sense.(lastDetect := 0, holdStart := if next == Hold then m.Now() else m.sense.holdStart)
    {
      TransitionSense(m, next);
    }
    forall m: Lid ensures ForceOff(m).sense == m.sense { OffSense(m); }
  }

  lemma OffSense(l: Lid)
    ensures ForceOff(l).sense == l.sense
  {
  }

  /** Any operation but an idle look. */
  lemma OpLoose(l: Lid, op: Op)
    requires Inv(l) && !LooksIdle(l, op)
    ensures
      var l' := Perform(l, op);
      && Loose(l.sense, l'.sense)
      && (l.state == Idle ==>
            l'.sense.lastDetect == if l'.state == Idle && op != EndUpdate then l.sense.lastDetect else 0)
  {
    hide Inv, Update, ServicePower, RequestChargingClose, TryBeginOta, FinishOta, Median,
         ForceOpen, ForceClose, ResetEmergency, StartMaintenance, StopMaintenance;
    match op {
      case Tick(env) => TickLoose(l, env);
      case OtaPower(env) =>
        ServiceSense(l, env);
        var s := ServicePower(l, env).lid.sense;
        if s.distance == FAR && s.window == ALL_FAR { FarIsFiltered(s); }
      case CloseForCharging(ttl, env) => ChargeLoose(l, ttl, env);
      case BeginUpdate(a, b) => UpdateLoose(l, a, b);
      case EndUpdate => UpdateLoose(l, false, false);
      case Advance(_) =>
      case Configure(_) =>
      case _ => CommandLoose(l, op);
    }
  }

  /** An idle look, from the sense before the tick. */
  lemma LookDoes(l: Lid, env: Env)
    requires Inv(l) && LooksIdle(l, Tick(env)) && Filtered(l.sense) && Locked(l.sense)
    ensures
      var l' := Update(l, env);
      var near, far := Approach(l, env), Clearing(l, env);
      && (l'.state == OpenStart <==> Fires(l.sense.lastDetect, near, l.config.debounceDelay))
      && (l'.state == OpenStart ==> l'.sense.lastDetect == 0)
      && (l'.state != OpenStart ==> l'.state == Idle && l'.sense.lastDetect == Stepped(l.sense.lastDetect, near))
      && l'.sense.deadlock == (l.sense.deadlock && !Fires(l.sense.deadlockClear, far, 10000))
      && l'.sense.deadlockClear == (if l'.sense.deadlock then Stepped(l.sense.deadlockClear, far) else 0)
      && Filtered(l'.sense) && l'.clock == near.at == far.at
  {
    hide Inv, ServicePower, Observed, AllOff, TickIdle, Invites, Healed, Median, Within, PeriodicRead;
    ServedWithoutProtection(l, env);
    PeriodicSense(l, env.reading);
    var o := Observed(PeriodicRead(l, env.reading), env.distance);
    ObservedSense(PeriodicRead(l, env.reading), env.distance);
    RelaySense(o, env);
    RelayState(o, env);
    IdleLook(o, env);
    var off := AllOff(o, env);
    HealLook(off.sense, off.config.distThreshold, off.clock);
  }

  lemma PeriodicSense(l: Lid, r: Reading)
    ensures PeriodicRead(l, r).sense == l.sense && PeriodicRead(l, r).config == l.config && PeriodicRead(l, r).state == l.state
  {
    hide Bus.Do, NextPolicy;
  }

  lemma RelayState(l: Lid, env: Env)
    ensures AllOff(l, env).state == l.state && AllOff(l, env).config == l.config
  {
    hide Bus.Do;
  }
}
