/** How a charging close goes on and ends, told from the readings over a run. */
module LidCharging {
  import opened Numeric
  import opened BatteryPolicy
  import opened BatteryHistory
  import opened BatteryLatch
  import opened BatterySnapshot
  import opened Gpio
  import opened Lid
  import opened LidWiring
  import opened LidInvariant
  import opened LidLog
  import opened LidLifecycles
  import opened LidRecord

  /** The controller with the moments at which its charging close was asked for and started,
      and for every look at it later than half a second, whether there was overcurrent. */
  datatype Watch = Watch(lid: Lid, requested: nat, started: nat, looks: seq<bool>)

  predicate Looks(l: Lid, op: Op) {
    l.charge.active && (op.Tick? || op.OtaPower?)
  }

  /** A current above the limit in magnitude, 3 A if the limit is no use. */
  predicate Overloads(current: Float, limit: Float) {
    match current
    case NaN => false
    case Fin(c) =>
      var most := if limit.Fin? && limit.r > 0.0 then limit.r else 3000.0;
      c > most || c < -most
    case _ => true
  }

  /** The latest reading of the tick tells of overcurrent. */
  predicate Overcurrents(l: Lid, l': Lid) {
    Overloads(SeenIn(l'.bus.log).current, l.config.currentStallLimit)
  }

  function Watched(w: Watch, op: Op): Watch {
    var l := w.lid;
    var l' := Perform(l, op);
    if !l.charge.active && l'.charge.active then Watch(l', l.clock, l'.clock, [])
    else if Looks(l, op) && Counted(l.clock - w.started) > 500 then w.(lid := l', looks := w.looks + [Overcurrents(l, l')])
    else w.(lid := l')
  }

  function WatchedAll(w: Watch, ops: seq<Op>): Watch
    decreases |ops|
  {
    if ops == [] then w else WatchedAll(Watched(w, ops[0]), ops[1..])
  }

  function Unwatched(l: Lid): Watch {
    Watch(l, 0, 0, [])
  }

  /** How many of the latest looks in a row told of overcurrent. */
  function Streak(looks: seq<bool>): nat {
    if looks == [] || !looks[|looks| - 1] then 0 else Streak(looks[..|looks| - 1]) + 1
  }

  lemma StreakOfTwo(looks: seq<bool>)
    ensures Streak(looks) >= 2 <==> |looks| >= 2 && looks[|looks| - 1] && looks[|looks| - 2]
  {
    if looks != [] && looks[|looks| - 1] {
      var before := looks[..|looks| - 1];
      assert before != [] ==> before[|before| - 1] == looks[|looks| - 2];
    }
  }

  lemma StreakGrows(looks: seq<bool>, look: bool)
    ensures Streak(looks + [look]) == if look then Streak(looks) + 1 else 0
  {
    assert (looks + [look])[..|looks|] == looks;
  }

  // ---- The verdict ----

  /** Above the cutoff, which is never below 11.0 V here, and at most 16 V. */
  predicate SafeVoltage(v: real, limit: Float) {
    Max(11.0, if limit.Fin? then limit.r else 11.0) < v <= 16.0
  }

  /** What a look at a running charging close comes to, from what has been read by then. */
  function Verdict(w: Watch, seen: Seen): CloseResult {
    var l := w.lid;
    var running := Counted(l.clock - w.started);
    var stroke: nat := if l.config.actuatorTime < 3800 then l.config.actuatorTime else 3800;
    if !Current(seen.history, l.clock) then BadSensor
    else if !SafeVoltage(Newest(seen.history).value.voltage.r, l.config.voltageShutdownLimit) then LowVoltage
    else if Counted(l.clock - w.requested) >= l.charge.ttl then Expired
    else if running >= stroke then StrokeFinished
    else if running > 500 && Overloads(seen.current, l.config.currentStallLimit) && Streak(w.looks) >= 2 then Overcurrent
    else Running
  }

  predicate Kept(w: Watch) {
    Good(w.lid) && (w.lid.charge.active ==> Tracked(w))
  }

  /** The close's own fields stand for what was watched. */
  predicate Tracked(w: Watch) {
    var c := w.lid.charge;
    && c.requestAt == Wrap(w.requested) && c.at == Wrap(w.started) && w.requested <= w.started <= w.lid.clock
    && c.stalls == Streak(w.looks) < 3
  }

  // ---- One look ----

  lemma StallIsOverload(current: Float, limit: Float)
    ensures StallLimit(limit).Lt(current.Abs()) <==> Overloads(current, limit)
  {
  }

  lemma SafeExactly(l: Lid)
    requires Remembered(l) && BatteryHistory.Timed(BatteryOf(l)) && AskedAt(BatteryOf(l), l.clock)
    ensures l.Power().valid <==> Current(BatteryOf(l), l.clock)
    ensures Current(BatteryOf(l), l.clock) ==>
              (ChargingPowerSafe(l) <==>
               SafeVoltage(Newest(BatteryOf(l)).value.voltage.r, l.config.voltageShutdownLimit))
  {
    hide TakeSnapshot, Replay, BatteryHistory.Timed;
    ReadingExactly(BatteryOf(l), l.clock);
    CurrentIsFinite(l.bus.log);
  }

  /** A usable reading has a finite current. */
  lemma {:induction false} CurrentIsFinite(log: Log)
    ensures
      var s := SeenIn(log);
      Newest(s.history).Some? && Newest(s.history).value.ok ==> s.current.Fin?
  {
    if log.Then? {
      CurrentIsFinite(log.before);
      var s, t := SeenIn(log.before), SeenIn(log);
      if |t.history| > |s.history| { assert Init(t.history) == s.history; }
    }
  }

  lemma ReadCharging(l: Lid, r: Reading)
    requires Good(l)
    ensures
      var m := PeriodicRead(l, r);
      && Remembered(m) && m.charge == l.charge && m.config == l.config && m.clock == l.clock && m.state == l.state
      && m.motorCurrent == SeenIn(m.bus.log).current
  {
    hide Inv, ReadSensors;
    ReadRecorded(l, r);
    ReadFrame(l, r);
  }

  lemma ReadFrame(l: Lid, r: Reading)
    ensures
      var m := ReadSensors(l, r);
      m.charge == l.charge && m.config == l.config && m.clock == l.clock && m.state == l.state
  {
    hide Bus.Do, NextPolicy;
  }

  /** Stopping a close takes no reading and no time. */
  lemma StopFrame(l: Lid, reason: CloseResult)
    ensures
      var s := StopCharging(l, reason);
      && s.charge == l.charge.(active := false, result := reason) && s.clock == l.clock && s.config == l.config
      && SeenIn(s.bus.log).current == SeenIn(l.bus.log).current && Newest(BatteryOf(s)) == Newest(BatteryOf(l))
  {
    hide Restored;
    OffSeen(l);
    var off := ForceOff(l);
    assert SeenIn(Then(off.bus.log, off.clock, LatchRestored)).history == SeenIn(off.bus.log).history + [Restore];
    assert Init(SeenIn(off.bus.log).history + [Restore]) == SeenIn(off.bus.log).history;
  }

  lemma OffSeen(l: Lid)
    ensures SeenIn(ForceOff(l).bus.log) == SeenIn(l.bus.log)
  {
    var a := Emit(l, MainOff);
    var b := Emit(a, DirMode(DirA, Input));
    assert SeenIn(b.bus.log) == SeenIn(a.bus.log) == SeenIn(l.bus.log);
  }

  /** The look at a running close, on the readings there are. */
  lemma SuperviseDecides(w: Watch, r: Lid)
    requires w.lid.charge.active && Tracked(w)
    requires Remembered(r) && r.charge == w.lid.charge && r.config == w.lid.config && r.clock == w.lid.clock
    requires r.state == BatteryLowShutdown && r.charge.result == Running && r.motorCurrent == SeenIn(r.bus.log).current
    requires BatteryHistory.Timed(BatteryOf(r)) && AskedAt(BatteryOf(r), r.clock)
    ensures
      var l', verdict := SuperviseCharge(r), Verdict(w, SeenIn(r.bus.log));
      && l'.charge.result == verdict && (l'.charge.active <==> verdict == Running)
      && (l'.charge.active ==>
            && l' == r.(charge := l'.charge)
            && l'.charge == r.charge.(stalls := if Counted(r.clock - w.started) > 500
                                                then Streak(w.looks + [Overloads(SeenIn(r.bus.log).current, r.config.currentStallLimit)])
                                                else Streak(w.looks))
            && l'.charge.stalls < 3)
  {
    hide StopCharging, ChargingPowerSafe, TakeSnapshot, StallLimit, Float.Lt, Float.Abs, Overloads, Current, SafeVoltage,
         Agrees, Streak, Newest, BatteryHistory.Timed, Replay;
    SafeExactly(r);
    StallIsOverload(r.motorCurrent, r.config.currentStallLimit);
    SinceIsElapsed(r.clock, w.started);
    SinceIsElapsed(r.clock, w.requested);
    StreakGrows(w.looks, Overloads(SeenIn(r.bus.log).current, r.config.currentStallLimit));
    forall m: Lid, reason
      ensures StopCharging(m, reason).charge == m.charge.(active := false, result := reason)
    {
      StopFrame(m, reason);
    }
  }

  /** A close that goes on keeps its moments, and counts this look. */
  lemma SuperviseCounts(w: Watch, r: Lid)
    requires w.lid.charge.active && Tracked(w)
    requires r.charge == w.lid.charge && r.config == w.lid.config && r.clock == w.lid.clock
    requires r.motorCurrent == SeenIn(r.bus.log).current && SuperviseCharge(r).charge.active
    ensures
      var l' := SuperviseCharge(r);
      && l' == r.(charge := l'.charge)
      && l'.charge == r.charge.(stalls := if Counted(r.clock - w.started) > 500
                                          then Streak(w.looks + [Overloads(SeenIn(r.bus.log).current, r.config.currentStallLimit)])
                                          else Streak(w.looks))
      && l'.charge.stalls < 3
  {
    hide StopCharging, ChargingPowerSafe, TakeSnapshot, StallLimit, Float.Lt, Float.Abs, Overloads, Streak;
    StallIsOverload(r.motorCurrent, r.config.currentStallLimit);
    SinceIsElapsed(r.clock, w.started);
    StreakGrows(w.looks, Overloads(SeenIn(r.bus.log).current, r.config.currentStallLimit));
    forall m: Lid, reason ensures !StopCharging(m, reason).charge.active { StopFrame(m, reason); }
  }

  lemma ActiveIsRunning(l: Lid)
    requires Inv(l) && l.charge.active
    ensures l.charge.result == Running && l.state == BatteryLowShutdown
  {
  }

  /** The power service of a running close, by a tick or in between. */
  lemma PowerLook(l: Lid, env: Env)
    requires Good(l) && l.charge.active
    ensures
      var r := PeriodicRead(l, env.reading);
      && ServicePower(l, env) == Served(SuperviseCharge(r), true) && Update(l, env) == SuperviseCharge(r)
      && SeenIn(SuperviseCharge(r).bus.log).current == SeenIn(r.bus.log).current
      && Newest(BatteryOf(SuperviseCharge(r))) == Newest(BatteryOf(r))
  {
    hide Inv, Agrees, ReadSensors, SuperviseCharge;
    ReadCharging(l, env.reading);
    SuperviseSeen(PeriodicRead(l, env.reading));
  }

  lemma SuperviseSeen(r: Lid)
    ensures SeenIn(SuperviseCharge(r).bus.log).current == SeenIn(r.bus.log).current
    ensures Newest(BatteryOf(SuperviseCharge(r))) == Newest(BatteryOf(r))
  {
    hide StopCharging, ChargingPowerSafe, TakeSnapshot, StallLimit, Float.Lt, Float.Abs;
    forall m: Lid, reason | m.bus == r.bus
      ensures SeenIn(StopCharging(m, reason).bus.log).current == SeenIn(r.bus.log).current
      ensures Newest(BatteryOf(StopCharging(m, reason))) == Newest(BatteryOf(r))
    {
      StopFrame(m, reason);
    }
  }

  lemma LookKeepsWatch(w: Watch, op: Op)
    requires Kept(w) && Looks(w.lid, op)
    ensures Perform(w.lid, op).charge.active ==> Tracked(Watched(w, op))
  {
    hide Inv, Agrees, PeriodicRead, SuperviseCharge, Overloads, Streak, Update, ServicePower, SeenIn, Newest, Replay;
    var l, env := w.lid, op.env;
    PowerLook(l, env);
    ReadCharging(l, env.reading);
    var r := PeriodicRead(l, env.reading);
    if SuperviseCharge(r).charge.active { SuperviseCounts(w, r); }
  }

  /** Nothing else touches a running close. */
  lemma OtherKeepsCharge(l: Lid, op: Op)
    requires Inv(l) && l.charge.active && !Looks(l, op)
    ensures Perform(l, op).charge == l.charge
  {
    hide Inv, TransitionTo, ForceOff, RequestChargingClose, TakeSnapshot, Rearmed, CanStartOta;
    ActiveMeans(l);
    forall m: Lid ensures ForceOff(m).charge == m.charge && Rearmed(m).charge == m.charge { ChargeKept(m, Idle); }
    forall m: Lid, next ensures TransitionTo(m, next).charge == m.charge { ChargeKept(m, next); }
    if op.CloseForCharging? { RequestFrame(l, op.ttl, op.env); }
  }

  lemma ChargeKept(l: Lid, next: FsmState)
    ensures ForceOff(l).charge == l.charge && Rearmed(l).charge == l.charge && TransitionTo(l, next).charge == l.charge
  {
    hide Bus.Do;
  }

  /** The start of a close. */
  lemma StartTracks(w: Watch, op: Op)
    requires Kept(w) && !w.lid.charge.active && Perform(w.lid, op).charge.active
    ensures Tracked(Watched(w, op)) && op.CloseForCharging?
  {
    hide Inv, Agrees, Perform, Prefix;
    ChargeLifecycle(w.lid, op);
    PerformExtends(w.lid, op);
    StartFields(w.lid, op.ttl, op.env);
  }

  lemma StartFields(l: Lid, ttl: u32, env: Env)
    requires !l.charge.active && Perform(l, CloseForCharging(ttl, env)).charge.active
    ensures
      var l' := Perform(l, CloseForCharging(ttl, env));
      l'.charge.requestAt == l.Now() && l'.charge.at == l'.Now() && l'.charge.stalls == 0
  {
    hide SwitchDirection, Rechecked, Bus.Do, ReadSensors, ChargeAdmitted, DirectionChanges, Restored;
    ReadFrame(l, env.reading);
    var b := ChargeBegun(ReadSensors(l, env.reading), ttl);
    SwitchCharge(b, env);
    RecheckCharge(b, env.reread);
    RecheckCharge(SwitchDirection(b, true, false, true, env.slackA, env.slackB), env.reread);
  }

  lemma SwitchCharge(l: Lid, env: Env)
    ensures SwitchDirection(l, true, false, true, env.slackA, env.slackB).charge == l.charge
  {
    hide Bus.Do;
  }

  lemma RecheckCharge(l: Lid, r: Reading)
    ensures Rechecked(l, r).charge.active ==> Rechecked(l, r).charge == l.charge
  {
    hide Bus.Do, NextPolicy, TakeSnapshot, Restored, ChargingPowerSafe;
  }

  lemma WatchKept(w: Watch, op: Op)
    requires Kept(w)
    ensures Kept(Watched(w, op))
  {
    hide Good, Perform, Tracked, Watched;
    GoodKeeps(w.lid, op);
    WatchedIsPerform(w, op);
    if Perform(w.lid, op).charge.active {
      if !w.lid.charge.active {
        StartTracks(w, op);
      } else if Looks(w.lid, op) {
        LookKeepsWatch(w, op);
      } else {
        OtherTracks(w, op);
      }
    }
  }

  lemma WatchedIsPerform(w: Watch, op: Op)
    ensures Watched(w, op).lid == Perform(w.lid, op)
  {
    hide Perform;
  }

  lemma OtherTracks(w: Watch, op: Op)
    requires Kept(w) && w.lid.charge.active && !Looks(w.lid, op)
    ensures Tracked(Watched(w, op))
  {
    hide Inv, Agrees, Perform, Prefix, Streak;
    OtherKeepsCharge(w.lid, op);
    PerformExtends(w.lid, op);
  }

  lemma {:induction false} RunIsWatched(w: Watch, ops: seq<Op>)
    requires Kept(w)
    ensures Kept(WatchedAll(w, ops)) && WatchedAll(w, ops).lid == RunOps(w.lid, ops)
    decreases |ops|
  {
    hide Kept, Perform, Watched;
    if ops != [] {
      WatchKept(w, ops[0]);
      WatchedIsPerform(w, ops[0]);
      RunIsWatched(Watched(w, ops[0]), ops[1..]);
    }
  }

  /** In any run, a look at a running charging close ends it, and for this reason, exactly as
      the verdict on the readings by then says: in particular as overcurrent exactly when
      nothing worse ends it, it has run for more than half a second, and this look and the two
      before it, all after that half second, each had a current above the limit. */
  lemma ChargingEndsExactly(nvs: Nvs, clock: nat, config: Config, first: Reading, ops: seq<Op>, op: Op)
    requires
      var l := RunOps(Boot(nvs, clock, config, first), ops);
      Looks(l, op) && BatteryHistory.Timed(BatteryOf(PeriodicRead(l, op.env.reading))) &&
      AskedAt(BatteryOf(PeriodicRead(l, op.env.reading)), l.clock)
    ensures
      var w := WatchedAll(Unwatched(Boot(nvs, clock, config, first)), ops);
      var l' := Perform(w.lid, op);
      var verdict := Verdict(w, SeenIn(PeriodicRead(w.lid, op.env.reading).bus.log));
      && w.lid == RunOps(Boot(nvs, clock, config, first), ops)
      && l'.charge.result == verdict && (l'.charge.active <==> verdict == Running)
      && (!l'.charge.active ==> AllInput(l'.bus.pins))
      && (verdict == Overcurrent ==> |w.looks| >= 2 && w.looks[|w.looks| - 1] && w.looks[|w.looks| - 2])
  {
    hide Boot, RunOps, WatchedAll, Inv, Agrees, PeriodicRead, SuperviseCharge, Update, ServicePower, BatteryHistory.Timed,
         Verdict, Streak;
    var b := Boot(nvs, clock, config, first);
    BootIsUnwatched(nvs, clock, config, first);
    RunIsWatched(Unwatched(b), ops);
    var w := WatchedAll(Unwatched(b), ops);
    var l := w.lid;
    var r := PeriodicRead(l, op.env.reading);
    PowerLook(l, op.env);
    ReadCharging(l, op.env.reading);
    ActiveIsRunning(l);
    SuperviseDecides(w, r);
    VerdictNeedsTwo(w, SeenIn(r.bus.log));
    ChargeLifecycle(l, op);
  }

  lemma VerdictNeedsTwo(w: Watch, seen: Seen)
    ensures Verdict(w, seen) == Overcurrent ==> |w.looks| >= 2 && w.looks[|w.looks| - 1] && w.looks[|w.looks| - 2]
  {
    hide Current, SafeVoltage, Overloads, Newest;
    StreakOfTwo(w.looks);
  }

  lemma BootIsUnwatched(nvs: Nvs, clock: nat, config: Config, first: Reading)
    ensures Kept(Unwatched(Boot(nvs, clock, config, first)))
  {
    hide Inv, Remembered, Boot;
    LogTellsBattery(nvs, clock, config, first, []);
    BootKeeps(nvs, clock, config, first);
    ActiveMeans(Boot(nvs, clock, config, first));
  }

  // ---- When it starts ----

  /** A reading of this moment is safe for closing exactly as the sensor tells it. */
  lemma FreshSafe(l: Lid, r: Reading)
    ensures ChargingPowerSafe(ReadSensors(l, r)) <==> ClosingSafe(r, l.config.voltageShutdownLimit)
    ensures ReadSensors(l, r).Power().valid <==> Usable(r.voltage, r.ok && r.current.Fin?)
  {
    hide Bus.Do;
    SampledReading(l.policy, l.Now(), r.voltage, r.ok && r.current.Fin?, l.config.voltageShutdownLimit);
  }

  lemma SampledReading(p: Policy, now: u32, voltage: Float, ok: bool, limit: Float)
    ensures
      var p' := Sampled(p, now, voltage, ok, limit);
      p'.valid == Usable(voltage, ok) && p'.sampled && p'.sampleAt == now && p'.voltage == voltage
  {
    hide LatchStep, Shown;
  }

  /** How long the contacts take before the second look. */
  function CloseDelay(l: Lid, env: Env): nat {
    if l.drive.lastClose && !l.drive.isolated then 0 else 2 * CONTACT_MS + env.slackA + env.slackB
  }

  /** A charging close is asked for in time, for the first time, with the motor still. */
  predicate Askable(l: Lid, ttl: u32) {
    !l.charge.used && 0 < ttl <= 120000 && l.state == BatteryLowShutdown && !UnderWay(l) && l.config.actuatorTime != 0
  }

  /** It starts exactly when it may be asked for, both readings, before and after the contact
      delays, are safe for closing, the first also with at most 50 mA and the latch held by
      it, and the delays do not use up its time to live. */
  lemma ChargingStartsExactly(l: Lid, ttl: u32, env: Env)
    requires Good(l) && !l.charge.active
    ensures
      var l', limit := Perform(l, CloseForCharging(ttl, env)), l.config.voltageShutdownLimit;
      l'.charge.active <==>
        && Askable(l, ttl) && ClosingSafe(env.reading, limit) && -50.0 <= env.reading.current.r <= 50.0
        && Held(BatteryOf(ReadSensors(l, env.reading))) && ClosingSafe(env.reread, limit)
        && Counted(CloseDelay(l, env)) < ttl
  {
    hide Inv, Agrees, ReadSensors, ClosingSafe, ChargingPowerSafe, SetRelays, Held, UnderWay, Lid.MotorRunning;
    MotorIsUnderWay(l);
    FreshSafe(l, env.reading);
    ReadRecorded(l, env.reading);
    ReadCurrent(l, env.reading);
    HeldIsReplay(ReadSensors(l, env.reading));
    if ClosingSafe(env.reading, l.config.voltageShutdownLimit) { SafeIsFinite(env.reading, l.config.voltageShutdownLimit); }
    if Askable(l, ttl) {
      AskedWired(l, env.reading);
      var read := ReadSensors(l, env.reading);
      BegunWired(read, ttl);
      StartsOnReread(ChargeBegun(read, ttl), env);
      BegunFields(read, ttl);
    }
  }

  lemma SafeIsFinite(r: Reading, limit: Float)
    requires ClosingSafe(r, limit)
    ensures r.current.Fin?
  {
  }

  lemma HeldIsReplay(l: Lid)
    requires Remembered(l)
    ensures l.policy.latch.held == Held(BatteryOf(l))
  {
  }

  lemma ReadCurrent(l: Lid, r: Reading)
    ensures
      var m := ReadSensors(l, r);
      && m.motorCurrent == r.current && m.charge == l.charge && m.config == l.config && m.clock == l.clock
      && m.drive == l.drive && m.state == l.state
  {
    hide Bus.Do, NextPolicy;
  }

  lemma AskedWired(l: Lid, r: Reading)
    requires Good(l)
    ensures Wired(ReadSensors(l, r))
  {
    hide SafeLog, Pinned, Agrees, ReadSensors;
    ReadWired(l, r);
  }

  lemma BegunFields(l: Lid, ttl: u32)
    ensures
      var b := ChargeBegun(l, ttl);
      b.charge.active && b.charge.requestAt == l.Now() && b.charge.ttl == ttl && b.config == l.config
  {
    hide Bus.Do;
  }

  /** The second look decides. */
  lemma StartsOnReread(b: Lid, env: Env)
    requires Wired(b) && b.charge.active && b.charge.requestAt == b.Now()
    ensures
      SetRelays(b, true, false, true, env).charge.active <==>
      ClosingSafe(env.reread, b.config.voltageShutdownLimit) && Counted(CloseDelay(b, env)) < b.charge.ttl
  {
    hide SafeLog, Pinned, SwitchDirection, ReadSensors, ClosingSafe, ChargingPowerSafe, StopCharging;
    var s := b;
    if DirectionChanges(b, true, false, true) {
      SwitchWired(b, true, false, true, env.slackA, env.slackB);
      s := SwitchDirection(b, true, false, true, env.slackA, env.slackB);
    }
    FreshSafe(s, env.reread);
    ReadCurrent(s, env.reread);
    SafeIsUsable(env.reread, b.config.voltageShutdownLimit);
    SinceIsElapsed(b.clock + CloseDelay(b, env), b.clock);
    forall m: Lid, reason ensures !StopCharging(m, reason).charge.active { StopFrame(m, reason); }
  }

  lemma SafeIsUsable(r: Reading, limit: Float)
    ensures ClosingSafe(r, limit) ==> Usable(r.voltage, r.ok && r.current.Fin?)
  {
  }
}
