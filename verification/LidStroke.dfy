/** How long the main relay stays on: when a tick lets a stroke go on, when a stroke is
    joined to the one before, and how much real time can pass before the relay opens. */
module LidStroke {
  import opened Numeric
  import opened BatteryPolicy
  import opened Gpio
  import opened Lid
  import opened LidWiring
  import opened LidInvariant
  import opened LidLog
  import opened LidLifecycles
  import opened LidDirections
  import opened LidReactions
  import opened LidSense
  import opened LidTimes

  /** Since when the main relay has been on without a break, if it is on. Energising it
      while it is on does not count. */
  function OnSince(log: Log): nat {
    match log
    case Booted(at, _) => at
    case Then(before, at, MainOn(_)) => if Pinned(before).mainOn then OnSince(before) else at
    case Then(before, _, _) => OnSince(before)
  }

  lemma {:induction false} OnSinceIsPast(log: Log)
    requires SafeLog(log)
    ensures OnSince(log) <= Pinned(log).at
  {
    hide BreakBeforeMake, StrokeOnce, ClosesOnEvidence, DrivesOneDirection;
    if log.Then? { OnSinceIsPast(log.before); }
  }

  lemma {:induction false} OnSinceGrows(early: Log, late: Log)
    requires SafeLog(late) && Prefix(early, late)
    ensures OnSince(early) <= OnSince(late)
  {
    hide BreakBeforeMake, StrokeOnce, ClosesOnEvidence, DrivesOneDirection, After;
    if early != late {
      OnSinceGrows(early, late.before);
      OnSinceIsPast(late.before);
    }
  }

  // ---- The protective stroke ----

  /** A tick under protection, no charging close running: the stroke goes on exactly while
      the latch is held, the reading is valid and the actuator time is not over. Anything
      else puts every relay pin in INPUT. */
  lemma ProtectionGoesOn(l: Lid, env: Env)
    requires Inv(l) && l.state == BatteryLowShutdown && !l.charge.active
    ensures
      var r, l' := PeriodicRead(l, env.reading), Update(l, env);
      && l' == ServicePower(l, env).lid && l'.clock == l.clock && l'.charge == l.charge
      && (l'.bus.pins.mainOn ==> l'.drive == l.drive && l'.stateTimer == l.stateTimer && l' == r)
      && (l'.bus.pins.mainOn <==>
            l.bus.pins.mainOn && r.policy.latch.held && r.Power().valid &&
            Since(l.Now(), l.stateTimer) < l.config.actuatorTime)
      && (l'.bus.pins.mainOn ==> l'.state == BatteryLowShutdown && l'.policy.latch.held && l'.Power().valid)
      && (l.bus.pins.mainOn && !l'.bus.pins.mainOn ==> AllInput(l'.bus.pins))
  {
    hide SafeLog, Pinned, PeriodicRead, SuperviseCharge, EnterProtection, LeaveProtection, ForceOff, TakeSnapshot,
         Metered, Charging, Protect;
    PeriodicReadKeeps(l, env.reading);
    var r := PeriodicRead(l, env.reading);
    HeldIsShown(r);
    ProtectGoesOn(r, r.Power().valid);
    LeaveIsolates(r);
  }

  lemma ProtectGoesOn(l: Lid, valid: bool)
    requires Wired(l) && (l.bus.pins.mainOn ==> l.drive.lowBatteryOpening) && (l.bus.pins.aMode == Input ==> l.drive.isolated)
    ensures
      var l' := Protect(l, valid);
      && l'.clock == l.clock && l'.charge == l.charge && l'.policy == l.policy && l'.state == l.state
      && (l'.bus.pins.mainOn ==> l' == l)
      && (l'.bus.pins.mainOn <==> l.bus.pins.mainOn && valid && Since(l.Now(), l.stateTimer) < l.config.actuatorTime)
      && (l.bus.pins.mainOn && !l'.bus.pins.mainOn ==> AllInput(l'.bus.pins))
  {
    hide SafeLog, Pinned, ForceOff;
    var m := l.(drive := l.drive.(lowBatteryOpening := false));
    ForceOffWired(m);
  }

  lemma LeaveIsolates(l: Lid)
    ensures
      var l' := LeaveProtection(l);
      AllInput(l'.bus.pins) && l'.clock == l.clock && l'.charge == l.charge
  {
    hide TransitionTo;
    forall m: Lid, next ensures Recorder(m, TransitionTo(m, next)) { TransitionRecords(m, next); }
  }

  /** A transition only writes to the store. */
  predicate Recorder(l: Lid, l': Lid) {
    && l'.bus.pins == l.bus.pins.(nvs := l'.bus.pins.nvs, at := l'.bus.pins.at) && OnSince(l'.bus.log) == OnSince(l.bus.log)
    && l'.clock == l.clock && l'.charge == l.charge
  }

  lemma TransitionRecords(l: Lid, next: FsmState)
    ensures Recorder(l, TransitionTo(l, next))
  {
  }

  // ---- Every stroke ----

  /** The strokes that a tick may let go on. */
  predicate Stroking(s: FsmState) {
    s == Opening || s == Closing || s == BatteryLowShutdown
  }

  /** The stroke's own timer has not reached the actuator time. */
  predicate InTime(l: Lid) {
    Since(l.Now(), if l.charge.active then l.charge.at else l.stateTimer) < l.config.actuatorTime
  }

  /** A starting tick that finds the main relay still on from a stroke in its own direction.
      A caller can see this before the tick. */
  predicate Rejoins(l: Lid, op: Op) {
    op.Tick? && l.bus.pins.mainOn &&
    ((l.state == OpenStart && l.drive.lastOpen) || (l.state == CloseStart && l.drive.lastClose))
  }

  /** Protection takes over an opening that is under way as its own stroke. */
  predicate TakesOver(l: Lid, op: Op) {
    l.bus.pins.mainOn && l.drive.lastOpen && l.state != BatteryLowShutdown &&
    Perform(l, op).state == BatteryLowShutdown && Perform(l, op).bus.pins.mainOn
  }

  /** The main relay has made at this moment, after a break if it was on before. */
  predicate Makes(l: Lid, l': Lid) {
    OnSince(l'.bus.log) == l'.clock && (l.bus.pins.mainOn ==> l.clock < l'.clock)
  }

  /** A stroke that joins the one before leaves the main relay on. */
  predicate Joins(l: Lid, l': Lid, same: bool) {
    if l.bus.pins.mainOn && same then OnSince(l'.bus.log) == OnSince(l.bus.log) else Makes(l, l')
  }

  /** A new stroke: for a new state, or for a charging close. */
  predicate Renewed(l: Lid, op: Op, l': Lid) {
    if l'.charge.active then
      && !l.charge.active && op.CloseForCharging? && l'.charge.at == l'.Now()
      && ((l.bus.pins.mainOn && !l.drive.lastOpen) || Makes(l, l'))
    else
      && Enters(l, op) && Stroking(l'.state) && (l'.state == BatteryLowShutdown ==> l'.drive.lastOpen)
      && Joins(l, l', TakesOver(l, op) || (Rejoins(l, op) && l'.state != BatteryLowShutdown))
  }

  /** The main relay stays on for the same stroke, which a tick allows only in time, or a
      command waits for the next tick with it on. */
  predicate GoesOn(l: Lid, op: Op, l': Lid) {
    && l.bus.pins.mainOn && l'.charge.active == l.charge.active && l'.charge.at == l.charge.at
    && (l'.state == l.state || (!Stroking(l'.state) && l.state != BatteryLowShutdown)) && op != EndUpdate
    && (l'.state == BatteryLowShutdown && !l'.charge.active ==> l'.drive.lastOpen == l.drive.lastOpen)
    && (op.Tick? ==> Stroking(l.state) && l'.state == l.state && InTime(l))
  }

  predicate Accounted(l: Lid, op: Op) {
    var l' := Perform(l, op);
    l'.bus.pins.mainOn ==> Renewed(l, op, l') || GoesOn(l, op, l')
  }

  lemma RelaysMake(l: Lid, open: bool, env: Env)
    requires Wired(l) && !l.charge.active
    ensures
      var l' := SetRelays(l, true, open, !open, env);
      && Joins(l, l', if open then l.drive.lastOpen else l.drive.lastClose)
      && !l'.charge.active && l'.drive.lastOpen == open && l.clock <= l'.clock
  {
    hide SwitchDirection, SafeLog, Rechecked;
    if DirectionChanges(l, true, open, !open) { SwitchWired(l, true, open, !open, env.slackA, env.slackB); }
    SwitchApart(l, true, open, !open, env.slackA, env.slackB);
  }

  lemma SwitchApart(l: Lid, mainOn: bool, open: bool, close: bool, slackA: nat, slackB: nat)
    ensures SwitchDirection(l, mainOn, open, close, slackA, slackB).charge == l.charge
  {
    hide Bus.Do;
  }

  lemma StartMakes(l: Lid, env: Env)
    requires Wired(l) && !l.charge.active && (l.state == OpenStart || l.state == CloseStart)
    ensures
      var l' := RunState(l, env);
      && Joins(l, l', if l.state == OpenStart then l.drive.lastOpen else l.drive.lastClose)
      && !l'.charge.active && l'.state == (if l.state == OpenStart then Opening else Closing)
  {
    hide SetRelays, TransitionTo, OnSince, Wired;
    RelaysMake(l, true, env);
    RelaysMake(l, false, env);
    forall m: Lid, next ensures Recorder(m, TransitionTo(m, next)) && TransitionTo(m, next).state == next {
      TransitionRecords(m, next);
      TransitionBegins(m);
    }
  }

  lemma EntryMakes(l: Lid, env: Env)
    requires Wired(l) && Owned(l) && !l.charge.active
    ensures
      var l' := EnterProtection(l, env);
      && (l'.bus.pins.mainOn ==> Joins(l, l', l.drive.lastOpen) && l'.drive.lastOpen)
      && !l'.charge.active && l'.state == BatteryLowShutdown
  {
    hide SetRelays, TransitionTo, OnSince, ForceOff, TakeSnapshot, SafeLog, Pinned;
    var critical := l.Power().valid && l.Power().state == Protected;
    var m := l.(drive := l.drive.(lowBatteryOpening := critical));
    TransitionRecords(m, BatteryLowShutdown);
    TransitionWired(m, BatteryLowShutdown);
    EnterFrame(l, env);
    RelaysMake(TransitionTo(m, BatteryLowShutdown), true, env);
    OffIsOff(TransitionTo(m, BatteryLowShutdown));
  }

  lemma ProtectHolds(l: Lid, valid: bool)
    ensures
      var l' := Protect(l, valid);
      l'.bus.pins.mainOn ==>
        l'.bus == l.bus && l'.clock == l.clock && l'.charge == l.charge && l'.state == l.state &&
        l'.drive.lastOpen == l.drive.lastOpen
  {
    hide ForceOff;
    OffIsOff(l.(drive := l.drive.(lowBatteryOpening := false)));
  }

  /** A charging close that goes on. */
  lemma ChargeHolds(l: Lid, env: Env)
    requires Inv(l) && l.charge.active
    ensures
      var l' := ServicePower(l, env).lid;
      && ServicePower(l, env).done && l'.clock == l.clock
      && (l'.bus.pins.mainOn ==>
            l.bus.pins.mainOn && l'.charge.active && l'.charge.at == l.charge.at && l'.state == l.state && InTime(l))
  {
    hide SafeLog, Pinned, PeriodicRead, ForceOff, TakeSnapshot, ChargingPowerSafe, Wired, Metered, StallLimit, Float.Lt,
         Float.Abs, Restored;
    PeriodicReadKeeps(l, env.reading);
    var r := PeriodicRead(l, env.reading);
    OffStops();
  }

  lemma OffStops()
    ensures forall l: Lid :: !ForceOff(l).bus.pins.mainOn && ForceOff(l).clock == l.clock
  {
  }

  lemma ReadSince(l: Lid, r: Reading)
    ensures OnSince(PeriodicRead(l, r).bus.log) == OnSince(l.bus.log) && PeriodicRead(l, r).clock == l.clock
  {
    hide NextPolicy;
  }

  /** The power service outside protection: the main relay makes only for protection. */
  lemma ServiceMakes(l: Lid, env: Env)
    requires Inv(l) && l.state != BatteryLowShutdown
    ensures
      var s := ServicePower(l, env).lid;
      s.bus.pins.mainOn ==>
        || (s.state == BatteryLowShutdown && !s.charge.active && s.drive.lastOpen && Joins(l, s, l.drive.lastOpen))
        || (s.state == l.state && l.bus.pins.mainOn && s.charge == l.charge && (ServicePower(l, env).done ==> !l.InMotion()))
  {
    hide SafeLog, Pinned, PeriodicRead, SuperviseCharge, EnterProtection, ForceOff, TakeSnapshot, Protect, Metered,
         LeaveProtection, OnSince, Wired;
    PeriodicReadKeeps(l, env.reading);
    InvCharge(l);
    var r := PeriodicRead(l, env.reading);
    ReadSince(l, env.reading);
    OffIsOff(r);
    EntryMakes(r, env);
    ProtectHolds(EnterProtection(r, env), r.Power().valid);
  }

  /** A tick left to the state machine. */
  lemma RunAccounted(l: Lid, env: Env)
    requires Inv(l) && !ServicePower(l, env).done && l.state != OtaUpdating
    ensures Accounted(l, Tick(env))
  {
    hide SafeLog, Pinned, PeriodicRead, Update, ServicePower, RunState, Inv, Observed, OnSince;
    ServedState(l, env);
    InvCharge(l);
    SensedSame(l, env);
    ServedWithoutProtection(l, env);
    if l.state == OpenStart || l.state == CloseStart {
      StartAccounted(l, env);
    } else if l.state == Opening {
      OpeningGoesOn(l, env);
      StrokeKeepsCharge(l, env);
    } else if l.state == Closing {
      ClosingGoesOn(l, env);
      StrokeKeepsCharge(l, env);
    } else {
      RestingGoesOn(l, env);
    }
  }

  lemma StartAccounted(l: Lid, env: Env)
    requires Inv(l) && !ServicePower(l, env).done && (l.state == OpenStart || l.state == CloseStart)
    ensures Accounted(l, Tick(env))
  {
    hide SafeLog, Pinned, PeriodicRead, Update, ServicePower, RunState, Inv, Observed, OnSince;
    InvCharge(l);
    ServedWithoutProtection(l, env);
    ObservedFrame(PeriodicRead(l, env.reading), env.distance);
    ReadSince(l, env.reading);
    ReadKeepsMain(l, env.reading);
    StartMakes(Sensed(l, env), env);
    UpdateRuns(l, env);
  }

  lemma UpdateRuns(l: Lid, env: Env)
    requires Inv(l) && !ServicePower(l, env).done && l.state != OtaUpdating
    ensures Update(l, env) == RunState(Sensed(l, env), env) && Sensed(l, env).charge == l.charge
  {
    hide Inv, ServicePower, RunState;
    ServedWithoutProtection(l, env);
    SensedSame(l, env);
  }

  lemma StrokeKeepsCharge(l: Lid, env: Env)
    requires Inv(l) && !l.charge.active
    ensures Update(l, env).charge == l.charge
  {
    hide Inv, Update;
    TickFollowsTable(l, env);
  }

  lemma TickAccounted(l: Lid, env: Env)
    requires Inv(l)
    ensures Accounted(l, Tick(env))
  {
    hide SafeLog, Pinned, PeriodicRead, ServicePower, RunState, Inv, Observed, OnSince;
    if l.charge.active {
      ActiveMeans(l);
      ChargeHolds(l, env);
    } else if l.state == BatteryLowShutdown {
      ProtectionGoesOn(l, env);
    } else if ServicePower(l, env).done || l.state == OtaUpdating {
      ServiceMakes(l, env);
      DoneAccounted(l, env);
    } else {
      RunAccounted(l, env);
    }
  }

  lemma DoneAccounted(l: Lid, env: Env)
    requires Inv(l) && l.state != BatteryLowShutdown && (ServicePower(l, env).done || l.state == OtaUpdating)
    ensures Accounted(l, Tick(env))
  {
    hide ServicePower, RunState, Observed, OnSince, Wired, Metered, Charging;
    ServiceMakes(l, env);
    ServicePowerKeeps(l, env);
    MainMeans(l);
  }

  lemma MainMeans(l: Lid)
    requires Inv(l)
    ensures l.bus.pins.mainOn ==>
              l.InMotion() || (l.state == BatteryLowShutdown && (l.drive.lowBatteryOpening || l.charge.active))
  {
  }

  lemma PowerAccounted(l: Lid, env: Env)
    requires Inv(l)
    ensures Accounted(l, OtaPower(env))
  {
    hide ServicePower, Inv, OnSince, InTime, PeriodicRead;
    if l.charge.active {
      ActiveMeans(l);
      ChargeHolds(l, env);
    } else if l.state == BatteryLowShutdown {
      ProtectionGoesOn(l, env);
    } else {
      InvCharge(l);
      ServiceMakes(l, env);
    }
  }

  /** A charging close that starts energises the main relay at that moment. */
  lemma ChargeMakes(l: Lid, env: Env)
    requires Wired(l) && l.charge.active
    ensures
      var l' := SetRelays(l, true, false, true, env);
      && l.clock <= l'.clock
      && (l'.bus.pins.mainOn ==> l'.charge.active && ((l.bus.pins.mainOn && !l.drive.lastOpen) || Makes(l, l')))
  {
    hide SwitchDirection, ReadSensors, ForceOff, ChargingPowerSafe, TakeSnapshot, Restored, SafeLog, Pinned;
    var s := l;
    if DirectionChanges(l, true, false, true) {
      SwitchWired(l, true, false, true, env.slackA, env.slackB);
      s := SwitchDirection(l, true, false, true, env.slackA, env.slackB);
    }
    OffStops();
    ReadCharge(s, env.reread);
    RecheckSince(s, env.reread);
  }

  /** Energising after the re-read. */
  lemma RecheckSince(l: Lid, r: Reading)
    requires Joined(l)
    ensures
      var read := ReadSensors(l, r);
      !l.bus.pins.mainOn ==> OnSince(EnergiseMain(read).bus.log) == read.clock == l.clock
  {
    hide NextPolicy, SafeLog, Pinned;
    var e := ReadPower(r, l.config.voltageShutdownLimit);
    l.bus.DoKeeps(l.clock, e);
    Emit(l, e).bus.DoKeeps(l.clock, LatchReleased);
  }

  lemma ReadCharge(l: Lid, r: Reading)
    ensures ReadSensors(l, r).charge == l.charge && ReadSensors(l, r).bus.pins.mainOn == l.bus.pins.mainOn
    ensures ReadSensors(l, r).state == l.state && ReadSensors(l, r).clock == l.clock
  {
    hide NextPolicy;
  }

  lemma ReadThenBegun(l: Lid, ttl: u32, r: Reading)
    requires Inv(l)
    ensures
      var m := ChargeBegun(ReadSensors(l, r), ttl);
      Wired(m) && m.bus.pins.mainOn == l.bus.pins.mainOn && m.clock == l.clock && m.drive.lastOpen == l.drive.lastOpen
  {
    hide SafeLog, Pinned, ReadSensors, Restored, ChargeBegun;
    ReadWired(l, r);
    ReadCharge(l, r);
    BegunWired(ReadSensors(l, r), ttl);
  }

  lemma ChargeAccounted(l: Lid, ttl: u32, env: Env)
    requires Inv(l)
    ensures Accounted(l, CloseForCharging(ttl, env))
  {
    hide Inv, SetRelays, ReadSensors, ChargeAdmitted, OnSince, Wired, InTime;
    ActiveMeans(l);
    ReadCharge(l, env.reading);
    RequestFrame(l, ttl, env);
    ReadThenBegun(l, ttl, env.reading);
    ChargeMakes(ChargeBegun(ReadSensors(l, env.reading), ttl), env);
  }

  lemma CommandAccounted(l: Lid, op: Op)
    requires op.CmdOpen? || op.CmdClose? || op.CmdReset?
    ensures Accounted(l, op)
  {
    hide TransitionTo, TakeSnapshot, OnSince, InTime;
    forall m: Lid, next ensures Recorder(m, TransitionTo(m, next)) && TransitionTo(m, next).state == next {
      TransitionRecords(m, next);
      TransitionBegins(m);
    }
  }

  lemma MaintenanceAccounted(l: Lid, op: Op)
    requires op.CmdMaintain? || op.CmdEndMaintain?
    ensures Accounted(l, op)
  {
    hide TransitionTo, TakeSnapshot, OnSince, InTime;
    forall m: Lid, next ensures Recorder(m, TransitionTo(m, next)) && TransitionTo(m, next).state == next {
      TransitionRecords(m, next);
      TransitionBegins(m);
    }
  }

  lemma UpdateAccounted(l: Lid, recovery: bool, maintenance: bool)
    ensures Accounted(l, BeginUpdate(recovery, maintenance)) && Accounted(l, EndUpdate)
  {
    hide TransitionTo, ForceOff, CanStartOta, OnSince, InTime, Restored;
    forall m: Lid, next ensures Recorder(m, TransitionTo(m, next)) { TransitionRecords(m, next); }
    OffStops();
  }

  lemma OpAccounted(l: Lid, op: Op)
    requires Inv(l)
    ensures Accounted(l, op)
  {
    hide Inv, Accounted;
    match op {
      case Tick(env) => TickAccounted(l, env);
      case OtaPower(env) => PowerAccounted(l, env);
      case CloseForCharging(ttl, env) => ChargeAccounted(l, ttl, env);
      case BeginUpdate(a, b) => UpdateAccounted(l, a, b);
      case EndUpdate => UpdateAccounted(l, false, false);
      case Advance(_) => PlainAccounted(l, op);
      case Configure(_) => PlainAccounted(l, op);
      case CmdMaintain => MaintenanceAccounted(l, op);
      case CmdEndMaintain => MaintenanceAccounted(l, op);
      case _ => CommandAccounted(l, op);
    }
  }

  lemma PlainAccounted(l: Lid, op: Op)
    requires op.Advance? || op.Configure?
    ensures Accounted(l, op)
  {
  }

  /** An operation that finds the main relay on and leaves it on begins a new stroke without
      a break exactly when it is one of the two joins. */
  lemma JoinsExactly(l: Lid, op: Op)
    requires Inv(l) && l.bus.pins.mainOn && Perform(l, op).bus.pins.mainOn
    ensures
      var l' := Perform(l, op);
      Enters(l, op) && Stroking(l'.state) && OnSince(l'.bus.log) == OnSince(l.bus.log) <==>
      TakesOver(l, op) || (Rejoins(l, op) && l'.state != BatteryLowShutdown)
  {
    hide Perform, Inv, OnSince, InTime;
    OpAccounted(l, op);
    OnIsPast(l);
    if op.CloseForCharging? {
      ChargeIsProtected(l, op);
      RequestFrame(l, op.ttl, op.env);
      AskIsRequest(l, op.ttl, op.env);
    }
  }

  lemma AskIsRequest(l: Lid, ttl: u32, env: Env)
    ensures Perform(l, CloseForCharging(ttl, env)) == RequestChargingClose(l, ttl, env)
  {
  }

  lemma OnIsPast(l: Lid)
    requires Inv(l)
    ensures OnSince(l.bus.log) <= l.clock
  {
    hide SafeLog, Pinned, OnSince;
    OnSinceIsPast(l.bus.log);
  }

  // ---- Over runs ----

  /** The controller with its moments, when the last tick began, and when the charging
      close began. */
  datatype Paced = Paced(timed: Timed, ticked: nat, charged: nat)

  function Step(p: Paced, op: Op): Paced {
    var l := p.timed.lid;
    var l' := Perform(l, op);
    Paced(Follow(p.timed, op), if op.Tick? then l.clock else p.ticked,
          if !l.charge.active && l'.charge.active then l'.clock else p.charged)
  }

  function StepAll(p: Paced, ops: seq<Op>): Paced
    decreases |ops|
  {
    if ops == [] then p else StepAll(Step(p, ops[0]), ops[1..])
  }

  /** While the main relay is on, the last tick began no more than `pause` ms ago. No
      configured actuator time is longer than `stroke`. */
  predicate Regular(p: Paced, ops: seq<Op>, pause: nat, stroke: nat)
    decreases |ops|
  {
    && (p.timed.lid.bus.pins.mainOn ==> p.timed.lid.clock <= p.ticked + pause)
    && p.timed.lid.config.actuatorTime <= stroke
    && (ops != [] ==> Regular(Step(p, ops[0]), ops[1..], pause, stroke))
  }

  /** While the main relay is on: the last tick came within the stroke time of the moment
      the stroke's timer stands for, which is not later than the relay went on, or for a
      protective stroke not later than `extra` after that. */
  predicate Bounded(p: Paced, stroke: nat, extra: nat) {
    var l := p.timed.lid;
    var on := OnSince(l.bus.log);
    l.bus.pins.mainOn ==>
      if l.charge.active then
        l.charge.at == Wrap(p.charged) && p.ticked <= p.charged + stroke && p.charged <= on && p.charged <= l.clock
      else if l.state == BatteryLowShutdown then
        l.drive.lastOpen && p.ticked <= p.timed.entered + stroke && p.timed.entered <= on + extra
      else if Stroking(l.state) then p.ticked <= p.timed.entered + stroke && p.timed.entered <= on
      else p.ticked <= on + stroke
  }

  /** Nothing is joined to a stroke under way, except that, if `over`, protection may take
      over an opening. */
  predicate Separate(l: Lid, op: Op, over: bool) {
    !Rejoins(l, op) && (over || !TakesOver(l, op))
  }

  predicate AllSeparate(l: Lid, ops: seq<Op>, over: bool)
    decreases |ops|
  {
    ops != [] ==> Separate(l, ops[0], over) && AllSeparate(Perform(l, ops[0]), ops[1..], over)
  }

  /** A stroke found in time by its timer is in time. */
  lemma TimerIsRight(now: nat, began: nat, limit: u32)
    requires began <= now < began + WRAP && Since(Wrap(now), Wrap(began)) < limit
    ensures now < began + limit
  {
    SinceIsElapsed(now, began);
  }

  lemma MadeEarlier(l: Lid, op: Op)
    requires Inv(l)
    ensures OnSince(l.bus.log) <= OnSince(Perform(l, op).bus.log) && l.clock <= Perform(l, op).clock
  {
    hide Perform, Prefix, SafeLog, Pinned, OnSince;
    PerformKeeps(l, op);
    PerformExtends(l, op);
    OnSinceGrows(l.bus.log, Perform(l, op).bus.log);
  }

  lemma TickInTime(p: Paced, pause: nat, stroke: nat, extra: nat)
    requires Timely(p.timed) && Bounded(p, stroke, extra) && p.timed.lid.clock <= p.ticked + pause
    requires p.timed.lid.config.actuatorTime <= stroke && stroke + pause < WRAP
    requires p.timed.lid.bus.pins.mainOn && Stroking(p.timed.lid.state) && InTime(p.timed.lid)
    ensures p.timed.lid.clock <= (if p.timed.lid.charge.active then p.charged else p.timed.entered) + stroke
  {
    hide OnSince, Filtered, Locked, Wired, Metered, Confined, Charging;
    var l := p.timed.lid;
    MainMeans(l);
    TimerIsRight(l.clock, if l.charge.active then p.charged else p.timed.entered, l.config.actuatorTime);
  }

  /** A stroke that goes on. */
  lemma GoingBounded(p: Paced, op: Op, pause: nat, stroke: nat, extra: nat)
    requires Timely(p.timed) && Bounded(p, stroke, extra) && p.ticked <= p.timed.lid.clock <= p.ticked + pause
    requires p.timed.lid.config.actuatorTime <= stroke && stroke + pause < WRAP
    requires GoesOn(p.timed.lid, op, Perform(p.timed.lid, op))
    ensures Bounded(Step(p, op), stroke, extra)
  {
    hide Perform, Timely, OnSince, InTime, LooksHeld, Occupied, Judged;
    var l := p.timed.lid;
    assert Inv(l) by { TimelyInv(p.timed); }
    MadeEarlier(l, op);
    if op.Tick? { TickInTime(p, pause, stroke, extra); }
  }

  /** A new stroke. */
  lemma NewBounded(p: Paced, op: Op, pause: nat, stroke: nat, over: bool)
    requires Timely(p.timed) && Bounded(p, stroke, Extra(over, pause, stroke)) && p.ticked <= p.timed.lid.clock
    requires p.timed.lid.bus.pins.mainOn ==> p.timed.lid.clock <= p.ticked + pause
    requires Separate(p.timed.lid, op, over) && Renewed(p.timed.lid, op, Perform(p.timed.lid, op))
    ensures Bounded(Step(p, op), stroke, Extra(over, pause, stroke))
  {
    hide Perform, Timely, OnSince, InTime, LooksHeld, Occupied, Judged, Rejoins;
    var l := p.timed.lid;
    assert Inv(l) by { TimelyInv(p.timed); }
    if op.CloseForCharging? { ChargeIsProtected(l, op); }
    ActiveMeans(l);
    MadeEarlier(l, op);
    TimelyOrder(p.timed);
  }

  lemma ChargeIsProtected(l: Lid, op: Op)
    requires Inv(l) && op.CloseForCharging?
    ensures Perform(l, op).charge.active ==> l.state == BatteryLowShutdown
  {
    hide Inv, RequestChargingClose;
    PerformKeeps(l, op);
    ActiveMeans(Perform(l, op));
    RequestFrame(l, op.ttl, op.env);
  }

  lemma TimelyOrder(t: Timed)
    requires Timely(t)
    ensures t.entered <= t.lid.clock
  {
  }

  function Extra(over: bool, pause: nat, stroke: nat): nat {
    if over then stroke + pause else 0
  }

  lemma StepBounded(p: Paced, op: Op, pause: nat, stroke: nat, over: bool)
    requires Timely(p.timed) && Bounded(p, stroke, Extra(over, pause, stroke)) && p.ticked <= p.timed.lid.clock
    requires p.timed.lid.bus.pins.mainOn ==> p.timed.lid.clock <= p.ticked + pause
    requires p.timed.lid.config.actuatorTime <= stroke && stroke + pause < WRAP
    requires Separate(p.timed.lid, op, over)
    ensures
      var p' := Step(p, op);
      Timely(p'.timed) && Bounded(p', stroke, Extra(over, pause, stroke)) && p'.ticked <= p'.timed.lid.clock
  {
    hide Perform, Timely, OnSince, Separate, Follow, Renewed, GoesOn, Extra;
    var l := p.timed.lid;
    assert Inv(l) by { TimelyInv(p.timed); }
    FollowKeeps(p.timed, op);
    FollowIsPerform(p.timed, op);
    OpAccounted(l, op);
    MadeEarlier(l, op);
    if Perform(l, op).bus.pins.mainOn {
      if GoesOn(l, op, Perform(l, op)) {
        GoingOn(l, op);
        GoingBounded(p, op, pause, stroke, Extra(over, pause, stroke));
      } else {
        NewBounded(p, op, pause, stroke, over);
      }
    }
  }

  lemma GoingOn(l: Lid, op: Op)
    requires GoesOn(l, op, Perform(l, op))
    ensures l.bus.pins.mainOn
  {
    hide Perform;
  }

  lemma FollowIsPerform(t: Timed, op: Op)
    ensures Follow(t, op).lid == Perform(t.lid, op)
  {
    hide Perform;
  }

  lemma TimelyInv(t: Timed)
    requires Timely(t)
    ensures Inv(t.lid)
  {
  }

  lemma {:induction false} RunBounded(p: Paced, ops: seq<Op>, pause: nat, stroke: nat, over: bool)
    requires Timely(p.timed) && Bounded(p, stroke, Extra(over, pause, stroke)) && p.ticked <= p.timed.lid.clock
    requires Regular(p, ops, pause, stroke) && stroke + pause < WRAP && AllSeparate(p.timed.lid, ops, over)
    ensures
      var last := StepAll(p, ops);
      && Bounded(last, stroke, Extra(over, pause, stroke))
      && (last.timed.lid.bus.pins.mainOn ==> last.timed.lid.clock <= last.ticked + pause)
      && last.timed.lid == RunOps(p.timed.lid, ops)
    decreases |ops|
  {
    hide Timely, Bounded, Perform, Follow, Separate, Extra;
    if ops != [] {
      StepBounded(p, ops[0], pause, stroke, over);
      FollowIsPerform(p.timed, ops[0]);
      RunBounded(Step(p, ops[0]), ops[1..], pause, stroke, over);
    }
  }

  function Started(l: Lid): Paced {
    Paced(JustBooted(l), l.clock, l.clock)
  }

  /** In any run from boot whose ticks are at most `pause` ms apart while the main relay is
      on, and in which no stroke is joined to the one before: it is never on without a break
      for longer than `stroke + pause` ms of real time, or twice that where protection may
      take over an opening; whatever the counter does. */
  lemma StrokesAreBounded(
      nvs: Nvs, clock: nat, config: Config, first: Reading, ops: seq<Op>, pause: nat, stroke: nat, over: bool)
    requires stroke + pause < WRAP
    requires Regular(Started(Boot(nvs, clock, config, first)), ops, pause, stroke)
    requires AllSeparate(Boot(nvs, clock, config, first), ops, over)
    ensures
      var l := RunOps(Boot(nvs, clock, config, first), ops);
      var extra := if over && l.state == BatteryLowShutdown && !l.charge.active then stroke + pause else 0;
      l.bus.pins.mainOn ==> l.clock <= OnSince(l.bus.log) + stroke + pause + extra
  {
    hide Boot, Timely, Regular, Inv, RunOps, OnSince, StepAll, AllSeparate;
    var b := Boot(nvs, clock, config, first);
    BootKeeps(nvs, clock, config, first);
    assert Timely(JustBooted(b)) by { TimelyFromBoot(nvs, clock, config, first, []); }
    RunBounded(Started(b), ops, pause, stroke, over);
  }
}
