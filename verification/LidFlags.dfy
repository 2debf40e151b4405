/** The flags the lid carries from one state to another: that maintenance is wanted, that the
    sensor is deadlocked, and that an opening only calibrates. */
module LidFlags {
  import opened Numeric
  import opened BatteryPolicy
  import opened BatterySnapshot
  import opened Gpio
  import opened Lid
  import opened LidWiring
  import opened LidInvariant
  import opened LidLifecycles
  import opened LidDirections
  import opened LidReactions
  import opened LidSense
  import opened LidRecord
  import opened LidAdmission
  import opened LidTimes
  import opened LidSight

  /** An obeyed call for maintenance. */
  predicate Asks(l: Lid, op: Op) {
    op == CmdMaintain && Admits(BatteryOf(l)) && TakesOrders(l.state)
  }

  /** Maintenance is called off, orders to close are obeyed, maintenance times out, protection
      ends, or a charging close begins. */
  predicate GivesUp(l: Lid, op: Op) {
    || (op == CmdEndMaintain && l.state != OtaUpdating)
    || (op == CmdClose && Orders(l, op))
    || (op.Tick? && l.state == Maintenance && Perform(l, op).state == CloseStart)
    || Leaves(l, op)
    || (op.CloseForCharging? && !l.charge.used && Perform(l, op).charge.used)
  }

  /** The lid has been held open for the longest time allowed, by the counter. */
  predicate Overstays(l: Lid, op: Op) {
    LooksHeld(l, op) && Since(Judged(l, op.env).Now(), l.sense.holdStart) >= l.config.maxHoldTime
  }

  /** No opening of this run is there to calibrate. */
  predicate Uncalibrated(l: Lid) {
    l.state != StartupOpen && !l.sense.calibration
  }

  /** What one operation makes of the flags. */
  predicate Marked(l: Lid, op: Op) {
    var s, l' := l.sense, Perform(l, op);
    && Uncalibrated(l')
    && l'.sense.maintenanceRequested == (Asks(l, op) || (s.maintenanceRequested && !GivesUp(l, op)))
    && (!s.deadlock ==> (l'.sense.deadlock <==> Overstays(l, op)))
  }

  // ---- A tick ----

  predicate SameFlags(s: Sense, s': Sense) {
    s'.maintenanceRequested == s.maintenanceRequested && s'.deadlock == s.deadlock && (!s.calibration ==> !s'.calibration)
  }

  lemma TransitionFlags(l: Lid, next: FsmState)
    ensures SameFlags(l.sense, TransitionTo(l, next).sense) && TransitionTo(l, next).state == next
  {
    hide TransitionTo;
    TransitionSense(l, next);
  }

  lemma RelayFlags(l: Lid, env: Env)
    ensures forall m: Lid :: AllOff(m, env).sense == m.sense && ForceOff(m).sense == m.sense
    ensures forall m: Lid ::
              SetRelays(m, true, true, false, env).sense == m.sense && SetRelays(m, true, false, true, env).sense == m.sense
  {
    hide AllOff, SetRelays, ForceOff;
    forall m: Lid
      ensures AllOff(m, env).sense == m.sense && ForceOff(m).sense == m.sense
      ensures SetRelays(m, true, true, false, env).sense == m.sense && SetRelays(m, true, false, true, env).sense == m.sense
    {
      RelaySense(m, env);
    }
  }

  lemma StartFlags(l: Lid, env: Env)
    ensures SameFlags(l.sense, TickOpenStart(l, env).sense) && SameFlags(l.sense, TickCloseStart(l, env).sense)
    ensures SameFlags(l.sense, TickEmergency(l).sense)
  {
    hide AllOff, SetRelays, TransitionTo, Sees, ForceOff;
    RelayFlags(l, env);
    forall m: Lid, next ensures SameFlags(m.sense, TransitionTo(m, next).sense) { TransitionFlags(m, next); }
  }

  lemma StrokeFlags(l: Lid, env: Env)
    ensures SameFlags(l.sense, TickOpening(l, env).sense) && SameFlags(l.sense, TickClosing(l, env).sense)
  {
    hide AllOff, SetRelays, TransitionTo, Sees, Stalled, ForceOff;
    RelayFlags(l, env);
    forall m: Lid, next ensures SameFlags(m.sense, TransitionTo(m, next).sense) { TransitionFlags(m, next); }
  }

  lemma IdleFlags(l: Lid, env: Env)
    ensures
      var s := TickIdle(l, env).sense;
      && s.maintenanceRequested == l.sense.maintenanceRequested && !s.calibration && (s.deadlock ==> l.sense.deadlock)
  {
    hide AllOff, TransitionTo;
    RelayFlags(l, env);
    forall m: Lid, next ensures SameFlags(m.sense, TransitionTo(m, next).sense) { TransitionFlags(m, next); }
  }

  lemma HoldFlags(l: Lid, env: Env)
    ensures
      var long := Since(AllOff(l, env).Now(), l.sense.holdStart) >= l.config.maxHoldTime;
      SameFlags(l.sense.(deadlock := l.sense.deadlock || long), TickHold(l, env).sense)
  {
    hide AllOff, TransitionTo, Sees;
    RelayFlags(l, env);
    RelayState(l, env);
    forall m: Lid, next ensures SameFlags(m.sense, TransitionTo(m, next).sense) { TransitionFlags(m, next); }
  }

  lemma MaintenanceFlags(l: Lid, env: Env)
    requires l.state == Maintenance
    ensures
      var l' := TickMaintenance(l, env);
      && (l'.state == CloseStart || l'.state == Maintenance)
      && SameFlags(l.sense.(maintenanceRequested := l.sense.maintenanceRequested && l'.state != CloseStart), l'.sense)
  {
    hide AllOff, TransitionTo;
    RelayFlags(l, env);
    RelayState(l, env);
    forall m: Lid, next
      ensures SameFlags(m.sense, TransitionTo(m, next).sense) && TransitionTo(m, next).state == next
    {
      TransitionFlags(m, next);
    }
  }

  /** The state machine on its own. */
  lemma RunFlags(l: Lid, env: Env)
    requires Uncalibrated(l)
    ensures
      var s, l' := l.sense, RunState(l, env);
      && !l'.sense.calibration
      && l'.sense.maintenanceRequested == (s.maintenanceRequested && !(l.state == Maintenance && l'.state == CloseStart))
      && (!s.deadlock ==> (l'.sense.deadlock <==>
            l.state == Hold && Since(AllOff(l, env).Now(), s.holdStart) >= l.config.maxHoldTime))
  {
    hide ForceOff, AllOff, TickStartup, TickIdle, TickHold, TickMaintenance, TickOpenStart, TickCloseStart, TickOpening,
         TickClosing, TickEmergency;
    StartFlags(l, env);
    StrokeFlags(l, env);
    IdleFlags(l, env);
    HoldFlags(l, env);
    if l.state == Maintenance { MaintenanceFlags(l, env); }
    OffSense(l);
  }

  lemma ServiceFlags(l: Lid, env: Env)
    requires Inv(l) && Uncalibrated(l)
    ensures
      var s, n := l.sense, ServicePower(l, env).lid;
      && Uncalibrated(n)
      && n.sense.maintenanceRequested == (s.maintenanceRequested && !(l.state == BatteryLowShutdown && n.state == Idle))
      && (!s.deadlock ==> !n.sense.deadlock)
  {
    hide SafeLog, Pinned, PeriodicRead, SuperviseCharge, Protect, EnterProtection, LeaveProtection, ForceOff, TakeSnapshot,
         Wired, Metered, Charging;
    PeriodicReadKeeps(l, env.reading);
    var r := PeriodicRead(l, env.reading);
    if l.state != BatteryLowShutdown { InvCharge(l); }
    SuperviseSense(r);
    OffSense(r);
    OffState(r);
    ProtectSense(r, r.Power().valid);
    EnterSense(r, env);
    ProtectSense(EnterProtection(r, env), r.Power().valid);
    LeaveFlags(r);
  }

  lemma LeaveFlags(l: Lid)
    ensures
      var l' := LeaveProtection(l);
      l'.state == Idle && !l'.sense.maintenanceRequested && !l'.sense.calibration && !l'.sense.deadlock
  {
    hide ForceOff, TransitionTo;
    forall m: Lid, next
      ensures SameFlags(m.sense, TransitionTo(m, next).sense) && TransitionTo(m, next).state == next
    {
      TransitionFlags(m, next);
    }
  }

  lemma TickFlags(l: Lid, env: Env)
    requires Inv(l) && Uncalibrated(l)
    ensures Marked(l, Tick(env))
  {
    hide Inv, ServicePower, RunState, Update, Uncalibrated;
    if Senses(l, Tick(env)) {
      SensedFlags(l, env);
    } else {
      ServiceFlags(l, env);
      NotSensed(l, env);
      KeptMarks(l, env);
    }
  }

  lemma SensedFlags(l: Lid, env: Env)
    requires Inv(l) && Uncalibrated(l) && Senses(l, Tick(env))
    ensures Marked(l, Tick(env))
  {
    hide Inv, ServicePower, RunState, Update, Sensed, AllOff;
    SensedSame(l, env);
    SensedKeepsFlags(l, env);
    UpdateSenses(l, env);
    RunFlags(Sensed(l, env), env);
    NotLeaving(l, env);
  }

  lemma NotLeaving(l: Lid, env: Env)
    requires Inv(l) && Uncalibrated(l) && Senses(l, Tick(env))
    ensures !Leaves(l, Tick(env)) && Update(l, env).state != StartupOpen
    ensures LooksHeld(l, Tick(env)) <==> l.state == Hold
  {
    hide Inv, ServicePower, Update;
    TickFollowsTable(l, env);
    ServedState(l, env);
  }

  lemma SensedKeepsFlags(l: Lid, env: Env)
    ensures
      var s, s' := l.sense, Sensed(l, env).sense;
      && SameFlags(s, s') && s'.holdStart == s.holdStart && s'.calibration == s.calibration
  {
    hide PeriodicRead;
    PeriodicSense(l, env.reading);
    ObservedSense(PeriodicRead(l, env.reading), env.distance);
  }

  /** What the power service keeps to itself is no look. */
  lemma KeptMarks(l: Lid, env: Env)
    requires Inv(l) && !Senses(l, Tick(env))
    ensures !LooksHeld(l, Tick(env))
    ensures Update(l, env).state == CloseStart ==> l.state != Maintenance
  {
    hide Inv, ServicePower, Update;
    NotSensed(l, env);
    if l.state != BatteryLowShutdown { ServiceStays(l, env); }
  }

  // ---- Any operation ----

  lemma CommandFlags(l: Lid, op: Op)
    requires (op.CmdOpen? || op.CmdClose? || op.CmdReset?) && Uncalibrated(l)
    ensures Marked(l, op)
  {
    hide TransitionTo, TakeSnapshot;
    forall m: Lid, next
      ensures SameFlags(m.sense, TransitionTo(m, next).sense) && TransitionTo(m, next).state == next
    {
      TransitionFlags(m, next);
    }
  }

  lemma WishFlags(l: Lid, op: Op)
    requires Good(l) && Uncalibrated(l) && (op.CmdMaintain? || op.CmdEndMaintain?)
    ensures Marked(l, op)
  {
    hide Good, TransitionTo, TakeSnapshot, Admits;
    GoodAdmits(l);
    forall m: Lid, next
      ensures SameFlags(m.sense, TransitionTo(m, next).sense) && TransitionTo(m, next).state == next
    {
      TransitionFlags(m, next);
    }
  }

  lemma ChargeFlags(l: Lid, ttl: u32, env: Env)
    requires Inv(l) && Uncalibrated(l)
    ensures Marked(l, CloseForCharging(ttl, env))
  {
    hide Inv, ReadSensors, NextPolicy, SetRelays, ChargeAdmitted, ChargeBegun;
    RequestFrame(l, ttl, env);
    var read := ReadSensors(l, env.reading);
    ReadKeepsFlags(l, env.reading);
    BegunFlags(read, ttl);
    StartFrame(ChargeBegun(read, ttl), env);
    StartStaysUsed(ChargeBegun(read, ttl), env);
    RelaySense(ChargeBegun(read, ttl), env);
  }

  lemma StartStaysUsed(l: Lid, env: Env)
    requires l.charge.used
    ensures SetRelays(l, true, false, true, env).charge.used
  {
    hide SwitchDirection, Rechecked, Bus.Do, DirectionChanges;
    SwitchFrame();
    RecheckStaysUsed(l, env.reread);
    RecheckStaysUsed(SwitchDirection(l, true, false, true, env.slackA, env.slackB), env.reread);
  }

  lemma RecheckStaysUsed(l: Lid, r: Reading)
    ensures Rechecked(l, r).charge.used == l.charge.used
  {
    hide NextPolicy, Bus.Do, Restored, ChargingPowerSafe, TakeSnapshot;
  }

  lemma ReadKeepsFlags(l: Lid, r: Reading)
    ensures ReadSensors(l, r).sense == l.sense && ReadSensors(l, r).charge == l.charge && ReadSensors(l, r).state == l.state
  {
    hide Bus.Do, NextPolicy;
  }

  lemma BegunFlags(l: Lid, ttl: u32)
    ensures
      var b := ChargeBegun(l, ttl);
      b.sense == l.sense.(maintenanceRequested := false, calibration := false) && b.charge.used && b.charge.active
  {
    hide Bus.Do, Restored;
  }

  lemma UpdateFlags(l: Lid, op: Op)
    requires (op.BeginUpdate? || op.EndUpdate?) && Uncalibrated(l)
    ensures Marked(l, op)
  {
    hide CanStartOta, TransitionTo, ForceOff, Restored;
    forall m: Lid, next
      ensures SameFlags(m.sense, TransitionTo(m, next).sense) && TransitionTo(m, next).state == next
    {
      TransitionFlags(m, next);
    }
    forall m: Lid ensures ForceOff(m).sense == m.sense && ForceOff(m).state == m.state { OffSense(m); OffState(m); }
  }

  lemma PowerFlags(l: Lid, env: Env)
    requires Inv(l) && Uncalibrated(l)
    ensures Marked(l, OtaPower(env))
  {
    hide Inv, ServicePower;
    ServiceFlags(l, env);
  }

  /** Maintenance is wanted from the moment it is asked for until it is given up. A deadlock
      begins exactly when the lid has been held open for the longest time allowed. */
  lemma FlagsExactly(l: Lid, op: Op)
    requires Good(l) && Uncalibrated(l)
    ensures Marked(l, op)
  {
    hide Inv, Agrees, Marked;
    match op {
      case Tick(env) => TickFlags(l, env);
      case OtaPower(env) => PowerFlags(l, env);
      case CloseForCharging(ttl, env) => ChargeFlags(l, ttl, env);
      case BeginUpdate(_, _) => UpdateFlags(l, op);
      case EndUpdate => UpdateFlags(l, op);
      case Advance(_) => PlainFlags(l, op);
      case Configure(_) => PlainFlags(l, op);
      case CmdMaintain => WishFlags(l, op);
      case CmdEndMaintain => WishFlags(l, op);
      case _ => CommandFlags(l, op);
    }
  }

  lemma PlainFlags(l: Lid, op: Op)
    requires (op.Advance? || op.Configure?) && Uncalibrated(l)
    ensures Marked(l, op)
  {
  }

  // ---- Over runs ----

  /** The controller with the wish for maintenance, told from the operations. */
  datatype Wished = Wished(lid: Lid, wanted: bool)

  function Heed(w: Wished, op: Op): Wished {
    Wished(Perform(w.lid, op), Asks(w.lid, op) || (w.wanted && !GivesUp(w.lid, op)))
  }

  function HeedAll(w: Wished, ops: seq<Op>): Wished
    decreases |ops|
  {
    if ops == [] then w else HeedAll(Heed(w, ops[0]), ops[1..])
  }

  predicate Heeded(w: Wished) {
    Good(w.lid) && Uncalibrated(w.lid) && w.lid.sense.maintenanceRequested == w.wanted
  }

  lemma HeedKeeps(w: Wished, op: Op)
    requires Heeded(w)
    ensures Heeded(Heed(w, op))
  {
    hide Good, Perform, Asks, GivesUp, Overstays;
    GoodKeeps(w.lid, op);
    FlagsExactly(w.lid, op);
  }

  lemma {:induction false} RunIsHeeded(w: Wished, ops: seq<Op>)
    requires Heeded(w)
    ensures Heeded(HeedAll(w, ops)) && HeedAll(w, ops).lid == RunOps(w.lid, ops)
    decreases |ops|
  {
    hide Heeded, Perform, Asks, GivesUp;
    if ops != [] {
      HeedKeeps(w, ops[0]);
      RunIsHeeded(Heed(w, ops[0]), ops[1..]);
    }
  }

  lemma BootFlags(nvs: Nvs, clock: nat, config: Config, first: Reading)
    ensures
      var l := Boot(nvs, clock, config, first);
      Uncalibrated(l) && !l.sense.maintenanceRequested
  {
    hide Bus.Do, NextPolicy;
  }

  /** In any run an opening ends in maintenance exactly when that was asked for since it was
      last given up, and none is there to calibrate. */
  lemma WishIsHeeded(nvs: Nvs, clock: nat, config: Config, first: Reading, ops: seq<Op>)
    ensures
      var b := Boot(nvs, clock, config, first);
      var w := HeedAll(Wished(b, false), ops);
      && w.lid == RunOps(b, ops) && Uncalibrated(w.lid) && w.lid.sense.maintenanceRequested == w.wanted
  {
    hide Good, Boot, RunOps, HeedAll;
    BootGood(nvs, clock, config, first);
    BootFlags(nvs, clock, config, first);
    RunIsHeeded(Wished(Boot(nvs, clock, config, first), false), ops);
  }

  /** In any run a deadlock begins exactly with the look that finds the lid held open for the
      longest time allowed, counted modulo 2^32 from when it came to be held. */
  lemma DeadlockBeginsExactly(nvs: Nvs, clock: nat, config: Config, first: Reading, ops: seq<Op>, op: Op)
    requires !RunOps(Boot(nvs, clock, config, first), ops).sense.deadlock
    ensures
      var t := FollowAll(JustBooted(Boot(nvs, clock, config, first)), ops);
      && t.lid == RunOps(Boot(nvs, clock, config, first), ops)
      && (Perform(t.lid, op).sense.deadlock <==>
            && LooksHeld(t.lid, op)
            && Counted(Judged(t.lid, op.env).clock - t.entered) >= t.lid.config.maxHoldTime)
  {
    hide Boot, RunOps, FollowAll, Good, Judged, ServicePower, Filtered, Locked, Asks, GivesUp, Perform;
    TimelyFromBoot(nvs, clock, config, first, ops);
    LogTellsBattery(nvs, clock, config, first, ops);
    WishIsHeeded(nvs, clock, config, first, ops);
    var t := FollowAll(JustBooted(Boot(nvs, clock, config, first)), ops);
    FlagsExactly(t.lid, op);
    if LooksHeld(t.lid, op) {
      IsHeld(t.lid, op.env);
      LookIsLater(t.lid, op.env);
      SinceIsElapsed(Judged(t.lid, op.env).clock, t.entered);
    }
  }
}
