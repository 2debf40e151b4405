/** The log tells what the controller knows of its battery: the history of power readings
    and held latches is a function of the log, and the controller's policy is its replay. */
module LidRecord {
  import opened Numeric
  import opened BatteryPolicy
  import opened BatteryHistory
  import opened BatteryLatch
  import opened DistanceFilter
  import opened Gpio
  import opened Lid
  import opened LidInvariant

  /** The battery policy's history, the latest current, and the last voltage read without
      any doubt (NaN if there was none). */
  datatype Seen = Seen(history: History, current: Float, verified: Float)

  function SeenIn(log: Log): Seen {
    match log
    case Booted(_, nvs) => Seen(if nvs.Durable() then [Restore] else [], Fin(0.0), NaN)
    case Then(before, at, ReadPower(r, limit)) =>
      var s := SeenIn(before);
      Seen(s.history + [Sample(at, r.voltage, r.ok && r.current.Fin?, limit)], r.current,
           if r.ok && r.voltage.Fin? && r.current.Fin? then r.voltage else s.verified)
    case Then(before, _, LatchRestored) => SeenIn(before).(history := SeenIn(before).history + [Restore])
    case Then(before, _, _) => SeenIn(before)
  }

  predicate Agrees(log: Log, p: Policy, current: Float, verified: Float) {
    var s := SeenIn(log);
    p == Replay(s.history) && current == s.current && verified == s.verified
  }

  /** The controller has forgotten nothing and invented nothing. */
  predicate Remembered(l: Lid) {
    Agrees(l.bus.log, l.policy, l.motorCurrent, l.lastVerified)
  }

  function BatteryOf(l: Lid): History {
    SeenIn(l.bus.log).history
  }

  // ---- Every operation keeps the record ----

  predicate SameRecord(l: Lid, l': Lid) {
    l'.bus == l.bus && l'.policy == l.policy && l'.motorCurrent == l.motorCurrent && l'.lastVerified == l.lastVerified
  }

  lemma SameRecorded(l: Lid)
    requires Remembered(l)
    ensures forall m: Lid :: SameRecord(l, m) ==> Remembered(m)
  {
  }

  lemma EmitRecorded(l: Lid, e: Event)
    requires Remembered(l) && !e.ReadPower? && e != LatchRestored
    ensures Remembered(Emit(l, e))
  {
    hide Replay;
  }

  lemma RearmRecorded(l: Lid)
    requires Remembered(l)
    ensures Remembered(Rearmed(l))
  {
    hide Replay;
    ReplayGrows(SeenIn(l.bus.log).history, Restore);
  }

  lemma ReadRecorded(l: Lid, r: Reading)
    requires Remembered(l)
    ensures Remembered(ReadSensors(l, r))
  {
    hide Replay, Sampled;
    var o := Sample(l.clock, r.voltage, r.ok && r.current.Fin?, l.config.voltageShutdownLimit);
    ReplayGrows(SeenIn(l.bus.log).history, o);
    var read := Emit(l, ReadPower(r, l.config.voltageShutdownLimit));
    assert SeenIn(read.bus.log).history == SeenIn(l.bus.log).history + [o];
    assert SeenIn(Emit(read, LatchReleased).bus.log) == SeenIn(read.bus.log);
  }

  lemma ReadHistory(l: Lid, r: Reading)
    ensures BatteryOf(ReadSensors(l, r)) ==
            BatteryOf(l) + [Sample(l.clock, r.voltage, r.ok && r.current.Fin?, l.config.voltageShutdownLimit)]
  {
    hide NextPolicy;
    var read := Emit(l, ReadPower(r, l.config.voltageShutdownLimit));
    assert SeenIn(Emit(read, LatchReleased).bus.log) == SeenIn(read.bus.log);
  }

  lemma ForceOffRecorded(l: Lid)
    requires Remembered(l)
    ensures Remembered(ForceOff(l))
  {
    hide Agrees;
    EmitRecorded(l, MainOff);
    var a := Emit(l, MainOff);
    EmitRecorded(a, DirMode(DirA, Input));
    EmitRecorded(Emit(a, DirMode(DirA, Input)), DirMode(DirB, Input));
  }

  lemma TransitionRecorded(l: Lid, next: FsmState)
    requires Remembered(l)
    ensures Remembered(TransitionTo(l, next))
  {
    hide Agrees;
    var m := Moved(l, next);
    var h := Emit(m, SaveHold(l.policy.latch.held));
    EmitRecorded(m, SaveHold(l.policy.latch.held));
    EmitRecorded(h, SaveLid(true));
    EmitRecorded(h, SaveLid(false));
  }

  lemma SwitchRecorded(l: Lid, mainOn: bool, open: bool, close: bool, slackA: nat, slackB: nat)
    requires Remembered(l)
    ensures Remembered(SwitchDirection(l, mainOn, open, close, slackA, slackB))
  {
    hide Agrees;
    EmitRecorded(l, MainOff);
    var broken := Wait(Emit(l, MainOff), slackA);
    EmitRecorded(broken, DirWrite(DirA, true));
    var a := Emit(broken, DirWrite(DirA, true));
    EmitRecorded(a, DirWrite(DirB, true));
    var neutral := Emit(a, DirWrite(DirB, true));
    EmitRecorded(neutral, DirMode(DirA, Output));
    EmitRecorded(Emit(neutral, DirMode(DirA, Output)), DirMode(DirB, Output));
    var n := Neutralise(l, mainOn, slackA);
    assert Remembered(n);
    EmitRecorded(n, DirWrite(DirA, !open));
    EmitRecorded(Emit(n, DirWrite(DirA, !open)), DirWrite(DirB, open || !close));
  }

  lemma StopChargingRecorded(l: Lid, reason: CloseResult)
    requires Remembered(l)
    ensures Remembered(StopCharging(l, reason))
  {
    hide Agrees, ForceOff;
    ForceOffRecorded(l);
    var off := ForceOff(l);
    RearmRecorded(off.(charge := l.charge.(active := false, result := reason),
                       drive := off.drive.(lowBatteryOpening := false)));
  }

  lemma RecheckRecorded(l: Lid, r: Reading)
    requires Remembered(l)
    ensures Remembered(Rechecked(l, r))
  {
    hide Remembered, ReadSensors, StopCharging;
    ReadRecorded(l, r);
    StopChargingRecorded(ReadSensors(l, r), BadSensor);
    StopChargingRecorded(ReadSensors(l, r), LowVoltage);
    StopChargingRecorded(ReadSensors(l, r), Expired);
  }

  lemma SetRelaysRecorded(l: Lid, mainOn: bool, open: bool, close: bool, env: Env)
    requires Remembered(l)
    ensures Remembered(SetRelays(l, mainOn, open, close, env))
  {
    hide Agrees, ForceOff, TransitionTo, SwitchDirection, Rechecked;
    if open && close {
      ForceOffRecorded(l);
      TransitionRecorded(ForceOff(l), EmergencyStop);
    } else {
      SwitchRecorded(l, mainOn, open, close, env.slackA, env.slackB);
      var s := if DirectionChanges(l, mainOn, open, close)
               then SwitchDirection(l, mainOn, open, close, env.slackA, env.slackB) else l;
      EmitRecorded(s, MainOff);
      EmitRecorded(s, MainOn(PurposeOf(s)));
      RecheckRecorded(s, env.reread);
      var r := Rechecked(s, env.reread);
      EmitRecorded(r, MainOn(PurposeOf(r)));
    }
  }

  lemma SuperviseRecorded(l: Lid)
    requires Remembered(l)
    ensures Remembered(SuperviseCharge(l))
  {
    hide Agrees, StopCharging, ChargingPowerSafe, TakeSnapshot;
    StopChargingRecorded(l, BadSensor);
    StopChargingRecorded(l, LowVoltage);
    StopChargingRecorded(l, Cancelled);
    StopChargingRecorded(l, Expired);
    StopChargingRecorded(l, StrokeFinished);
    forall n: nat ensures Remembered(l.(charge := l.charge.(stalls := n)))
      ensures Remembered(StopCharging(l.(charge := l.charge.(stalls := n)), Overcurrent))
    {
      SameRecorded(l);
      StopChargingRecorded(l.(charge := l.charge.(stalls := n)), Overcurrent);
    }
  }

  lemma ProtectRecorded(l: Lid, valid: bool)
    requires Remembered(l)
    ensures Remembered(Protect(l, valid))
  {
    hide Agrees, ForceOff;
    ForceOffRecorded(l.(drive := l.drive.(lowBatteryOpening := false)));
  }

  lemma EnterProtectionRecorded(l: Lid, env: Env)
    requires Remembered(l)
    ensures Remembered(EnterProtection(l, env))
  {
    hide Agrees, ForceOff, TransitionTo, SetRelays, TakeSnapshot;
    forall b: bool
      ensures
        var t := TransitionTo(l.(drive := l.drive.(lowBatteryOpening := b)), BatteryLowShutdown);
        Remembered(SetRelays(t, true, true, false, env)) && Remembered(ForceOff(t))
    {
      var m := l.(drive := l.drive.(lowBatteryOpening := b));
      TransitionRecorded(m, BatteryLowShutdown);
      SetRelaysRecorded(TransitionTo(m, BatteryLowShutdown), true, true, false, env);
      ForceOffRecorded(TransitionTo(m, BatteryLowShutdown));
    }
  }

  lemma LeaveRecorded(l: Lid)
    requires Remembered(l)
    ensures Remembered(LeaveProtection(l))
  {
    hide Agrees, ForceOff, TransitionTo;
    ForceOffRecorded(l);
    var off := ForceOff(l);
    TransitionRecorded(off.(drive := off.drive.(lowBatteryOpening := false),
                            sense := l.sense.(maintenanceRequested := false, calibration := false, deadlock := false,
                                              deadlockClear := 0, cooling := false, lastDetect := 0,
                                              distance := 999.0, window := ALL_FAR, blindStart := l.Now())), Idle);
  }

  lemma ServicePowerRecorded(l: Lid, env: Env)
    requires Remembered(l)
    ensures Remembered(ServicePower(l, env).lid)
  {
    hide Remembered, ForceOff, TakeSnapshot, ReadSensors, SuperviseCharge, Protect, EnterProtection, LeaveProtection;
    ReadRecorded(l, env.reading);
    var r := PeriodicRead(l, env.reading);
    SuperviseRecorded(r);
    ForceOffRecorded(r);
    ProtectRecorded(r, r.Power().valid);
    EnterProtectionRecorded(r, env);
    ProtectRecorded(EnterProtection(r, env), r.Power().valid);
    LeaveRecorded(r);
  }

  lemma StepsRecorded(l: Lid, env: Env)
    requires Remembered(l)
    ensures Remembered(AllOff(l, env)) && Remembered(ForceOff(l))
    ensures Remembered(SetRelays(l, true, true, false, env)) && Remembered(SetRelays(l, true, false, true, env))
    ensures forall next :: Remembered(TransitionTo(l, next))
  {
    hide Remembered, ForceOff, TransitionTo, SetRelays;
    SetRelaysRecorded(l, false, false, false, env);
    SetRelaysRecorded(l, true, true, false, env);
    SetRelaysRecorded(l, true, false, true, env);
    ForceOffRecorded(l);
    forall next ensures Remembered(TransitionTo(l, next)) { TransitionRecorded(l, next); }
  }

  lemma RestRecorded(l: Lid, env: Env)
    requires Remembered(l)
    ensures Remembered(TickStartup(l, env)) && Remembered(TickIdle(l, env))
    ensures Remembered(TickHold(l, env)) && Remembered(TickMaintenance(l, env))
    ensures Remembered(TickEmergency(l))
  {
    hide Remembered, ForceOff, TransitionTo, SetRelays, AllOff, Healed, Sees;
    StepsRecorded(l, env);
    SameRecorded(AllOff(l, env));
    SameRecorded(ForceOff(l));
    forall m: Lid, next | Remembered(m) ensures Remembered(TransitionTo(m, next)) { TransitionRecorded(m, next); }
  }

  lemma MotionRecorded(l: Lid, env: Env)
    requires Remembered(l)
    ensures Remembered(TickOpenStart(l, env)) && Remembered(TickCloseStart(l, env))
    ensures Remembered(TickOpening(l, env)) && Remembered(TickClosing(l, env))
  {
    hide Remembered, ForceOff, TransitionTo, SetRelays, AllOff, Sees, Stalled;
    SameRecorded(l);
    forall m: Lid | SameRecord(l, m)
      ensures Remembered(AllOff(m, env)) && Remembered(ForceOff(m))
      ensures Remembered(SetRelays(m, true, true, false, env)) && Remembered(SetRelays(m, true, false, true, env))
    {
      StepsRecorded(m, env);
    }
    forall m: Lid, next | Remembered(m) ensures Remembered(TransitionTo(m, next)) { TransitionRecorded(m, next); }
    forall m: Lid, s: Sense | Remembered(m) ensures Remembered(m.(sense := s)) { SameRecorded(m); }
  }

  lemma RunStateRecorded(l: Lid, env: Env)
    requires Remembered(l)
    ensures Remembered(RunState(l, env))
  {
    hide Remembered, ForceOff, TransitionTo, SetRelays, AllOff, TickStartup, TickIdle, TickHold, TickMaintenance,
         TickEmergency, TickOpenStart, TickCloseStart, TickOpening, TickClosing;
    StepsRecorded(l, env);
    RestRecorded(l, env);
    MotionRecorded(l, env);
  }

  lemma RequestRecorded(l: Lid, ttl: u32, env: Env)
    requires Remembered(l)
    ensures Remembered(RequestChargingClose(l, ttl, env))
  {
    hide Agrees, SetRelays, ReadSensors, ChargeAdmitted, ChargeRequestable;
    ReadRecorded(l, env.reading);
    var read := ReadSensors(l, env.reading);
    RearmRecorded(read.(
      charge := read.charge.(used := true, active := true, result := Running, requestAt := read.Now(), ttl := ttl, stalls := 0),
      drive := read.drive.(lowBatteryOpening := false),
      sense := read.sense.(maintenanceRequested := false, calibration := false)));
    SetRelaysRecorded(ChargeBegun(read, ttl), true, false, true, env);
  }

  lemma UpdateRecorded(l: Lid, env: Env)
    requires Remembered(l)
    ensures Remembered(Update(l, env))
  {
    hide Remembered, ServicePower, RunState, Median, TakeSnapshot;
    ServicePowerRecorded(l, env);
    var s := ServicePower(l, env).lid;
    SameRecorded(s);
    RunStateRecorded(Observed(s, env.distance), env);
  }

  lemma BeginRecorded(l: Lid, recovery: bool, maintenance: bool)
    requires Remembered(l)
    ensures Remembered(BeginOta(l, recovery, maintenance)) && Remembered(TryBeginOta(l, recovery, maintenance))
  {
    hide Remembered, ForceOff, TransitionTo, CanStartOta;
    ForceOffRecorded(l);
    SameRecorded(ForceOff(l));
    var off, special := ForceOff(l), recovery || maintenance;
    TransitionRecorded(off.(ota := Reservation(recovery, maintenance, off.ota.used || special,
                                               if special then off.Now() else off.ota.at)), OtaUpdating);
  }

  lemma FinishRecorded(l: Lid)
    requires Remembered(l)
    ensures Remembered(FinishOta(l))
  {
    hide Remembered, ForceOff, TransitionTo, Rearmed;
    var o := l.(ota := l.ota.(recovery := false, maintenance := false));
    SameRecorded(l);
    ForceOffRecorded(o);
    var off := ForceOff(o);
    SameRecorded(off);
    var f := off.(drive := off.drive.(lowBatteryOpening := false));
    RearmRecorded(f);
    var next := if f.policy.latch.held then BatteryLowShutdown else Idle;
    var h := if f.policy.latch.held then Rearmed(f) else f;
    TransitionRecorded(h, next);
    SameRecorded(TransitionTo(h, next));
  }

  lemma CommandRecorded(l: Lid, op: Op)
    requires Remembered(l)
    requires op.CmdOpen? || op.CmdClose? || op.CmdReset? || op.CmdMaintain? || op.CmdEndMaintain? || op.Advance? || op.Configure?
    ensures Remembered(Perform(l, op))
  {
    hide Remembered, TransitionTo, TakeSnapshot;
    SameRecorded(l);
    forall m: Lid, next | SameRecord(l, m) ensures Remembered(TransitionTo(m, next)) { TransitionRecorded(m, next); }
  }

  lemma PerformRecorded(l: Lid, op: Op)
    requires Remembered(l)
    ensures Remembered(Perform(l, op))
  {
    hide Remembered, Update, ServicePower, RequestChargingClose, TryBeginOta, FinishOta;
    match op
    case Tick(env) => UpdateRecorded(l, env);
    case OtaPower(env) => ServicePowerRecorded(l, env);
    case CloseForCharging(ttl, env) => RequestRecorded(l, ttl, env);
    case BeginUpdate(recovery, maintenance) => BeginRecorded(l, recovery, maintenance);
    case EndUpdate => FinishRecorded(l);
    case _ => CommandRecorded(l, op);
  }

  lemma BootRecorded(nvs: Nvs, clock: nat, config: Config, r: Reading)
    ensures Remembered(Boot(nvs, clock, config, r))
  {
    hide ReadSensors;
    var l := PowerOn(nvs, clock, config);
    ReplayGrows([], Restore);
    assert [] + [Restore] == [Restore];
    ReadRecorded(l, r);
  }

  /** The invariant of the controller together with its record. */
  predicate Good(l: Lid) {
    Inv(l) && Remembered(l)
  }

  lemma GoodKeeps(l: Lid, op: Op)
    requires Good(l)
    ensures Good(Perform(l, op))
  {
    hide Inv, Remembered, Perform;
    PerformKeeps(l, op);
    PerformRecorded(l, op);
  }

  lemma BeginGood(l: Lid, recovery: bool, maintenance: bool)
    requires Good(l)
    ensures Good(TryBeginOta(l, recovery, maintenance))
  {
    hide Inv, Remembered, TryBeginOta;
    TryBeginKeeps(l, recovery, maintenance);
    BeginRecorded(l, recovery, maintenance);
  }

  lemma FinishGood(l: Lid)
    requires Good(l)
    ensures Good(FinishOta(l))
  {
    hide Inv, Remembered, FinishOta;
    FinishKeeps(l);
    FinishRecorded(l);
  }

  lemma OrdersGood(l: Lid)
    requires Good(l)
    ensures Good(ForceOpen(l)) && Good(ForceClose(l)) && Good(ResetEmergency(l))
  {
    hide Inv, Remembered, ForceOpen, ForceClose, ResetEmergency;
    CommandsKeep(l);
    CommandRecorded(l, CmdOpen);
    CommandRecorded(l, CmdClose);
    CommandRecorded(l, CmdReset);
  }

  lemma MaintenanceGood(l: Lid)
    requires Good(l)
    ensures Good(StartMaintenance(l)) && Good(StopMaintenance(l))
  {
    hide Inv, Remembered, StartMaintenance, StopMaintenance;
    StartMaintenanceKeeps(l);
    StopMaintenanceKeeps(l);
    CommandRecorded(l, CmdMaintain);
    CommandRecorded(l, CmdEndMaintain);
  }

  lemma {:induction false} GoodRuns(l: Lid, ops: seq<Op>)
    requires Good(l)
    ensures Good(RunOps(l, ops))
    decreases |ops|
  {
    hide Good, Perform;
    if ops != [] {
      GoodKeeps(l, ops[0]);
      GoodRuns(Perform(l, ops[0]), ops[1..]);
    }
  }

  lemma BootGood(nvs: Nvs, clock: nat, config: Config, r: Reading)
    ensures Good(Boot(nvs, clock, config, r))
  {
    hide Inv, Remembered, Boot;
    BootKeeps(nvs, clock, config, r);
    BootRecorded(nvs, clock, config, r);
  }

  /** In any run the battery policy is the replay of what the log shows. */
  lemma LogTellsBattery(nvs: Nvs, clock: nat, config: Config, first: Reading, ops: seq<Op>)
    ensures Good(RunOps(Boot(nvs, clock, config, first), ops))
  {
    hide Good, Boot;
    BootGood(nvs, clock, config, first);
    GoodRuns(Boot(nvs, clock, config, first), ops);
  }

  /** Power samples, and the present moment after them, lie less than one turn of the
      counter apart. */
  predicate InStep(l: Lid) {
    Timed(BatteryOf(l)) && AskedAt(BatteryOf(l), l.clock)
  }

  /** A tick takes a reading first exactly when the last one is 200 ms old, or a second old
      with the latch held and no stroke under way. */
  lemma ReadingsOnTime(l: Lid, r: Reading)
    requires Good(l) && InStep(l)
    ensures
      var h := BatteryOf(l);
      && LastAt(h).Some? && LastAt(h).value <= l.clock
      && var age := l.clock - LastAt(h).value;
         BatteryOf(PeriodicRead(l, r)) ==
         if age >= (if Held(h) && !UnderWay(l) then 1000 else 200)
         then h + [Sample(l.clock, r.voltage, r.ok && r.current.Fin?, l.config.voltageShutdownLimit)]
         else h
  {
    hide LidWiring.Wired, Confined, Powered, Charging, ReadSensors, SeenIn, Timed, Replay, WellFormed;
    MotorIsUnderWay(l);
    SampleClock(BatteryOf(l));
    ReadHistory(l, r);
    SinceIsElapsed(l.clock, LastAt(BatteryOf(l)).value);
  }
}
