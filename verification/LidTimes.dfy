/** The state timers over a run: what they measure, and so how long a rest lasts. */
module LidTimes {
  import opened Numeric
  import opened BatteryPolicy
  import opened DistanceFilter
  import opened Gpio
  import opened Lid
  import opened LidInvariant
  import opened LidLog
  import opened LidDirections
  import opened LidReactions
  import opened LidSense
  import opened LidWatch
  import opened ZeroTimer

  /** The controller with moments of real time: when it came into its present state, and
      when the held lid was last found occupied or else came to be held. */
  datatype Timed = Timed(lid: Lid, entered: nat, occupied: nat)

  /** A tick of the held lid that is left to the state machine. */
  predicate LooksHeld(l: Lid, op: Op) {
    op.Tick? && l.state == Hold && !ServicePower(l, op.env).done
  }

  /** Someone is near, by three of the last five readings, and the lid did not open only
      to calibrate. */
  predicate Occupied(l: Lid) {
    !l.sense.calibration && Nearer(l.sense.window, l.config.distThreshold) >= 3 && Within(l.sense.window, 0.0) < 3
  }

  /** Protection is entered at the start of an operation, every other state at its end. */
  function EntryTime(l: Lid, l': Lid): nat {
    if l'.state == BatteryLowShutdown then l.clock else l'.clock
  }

  predicate Enters(l: Lid, op: Op) {
    Perform(l, op).state != l.state || op == EndUpdate
  }

  function Follow(t: Timed, op: Op): Timed {
    var l := t.lid;
    var l' := Perform(l, op);
    if Enters(l, op) then Timed(l', EntryTime(l, l'), EntryTime(l, l'))
    else Timed(l', t.entered, if LooksHeld(l, op) && Occupied(Judged(l, op.env)) then l'.clock else t.occupied)
  }

  function FollowAll(t: Timed, ops: seq<Op>): Timed
    decreases |ops|
  {
    if ops == [] then t else FollowAll(Follow(t, ops[0]), ops[1..])
  }

  function JustBooted(l: Lid): Timed {
    Timed(l, l.clock, l.clock)
  }

  // ---- One operation ----

  predicate SameTimers(l: Lid, l': Lid) {
    l'.state == l.state && l'.stateTimer == l.stateTimer && l'.sense.holdStart == l.sense.holdStart &&
    (l'.drive.lowBatteryOpening ==> l.drive.lowBatteryOpening)
  }

  /** The timers of the new state start at `now`. */
  predicate Begins(l: Lid, now: u32) {
    l.state != Idle ==> l.stateTimer == now && (l.state == Hold ==> l.sense.holdStart == now)
  }

  /** The state machine either stays where it is or starts anew at the end of the tick. */
  predicate Dated(l: Lid, l': Lid) {
    if l'.state == l.state then SameTimers(l, l') else Begins(l', l'.Now())
  }

  lemma TransitionBegins(l: Lid)
    ensures forall next ::
              var l' := TransitionTo(l, next);
              && Begins(l', l'.Now()) && l'.state == next && l'.clock == l.clock
              && l'.drive.lowBatteryOpening == l.drive.lowBatteryOpening
  {
    hide Bus.Do;
  }

  lemma SwitchTimes(l: Lid, mainOn: bool, open: bool, close: bool, slackA: nat, slackB: nat)
    ensures SameTimers(l, SwitchDirection(l, mainOn, open, close, slackA, slackB))
  {
    hide Bus.Do;
  }

  lemma RecheckTimes(l: Lid, r: Reading)
    ensures SameTimers(l, Rechecked(l, r))
  {
    hide Bus.Do, NextPolicy, TakeSnapshot, Restored, ChargingPowerSafe;
  }

  lemma SetRelaysTimes(l: Lid, mainOn: bool, open: bool, env: Env)
    ensures SameTimers(l, SetRelays(l, mainOn, open, mainOn && !open, env))
  {
    hide Bus.Do, SwitchDirection, Rechecked, DirectionChanges;
    SwitchTimes(l, mainOn, open, mainOn && !open, env.slackA, env.slackB);
    RecheckTimes(l, env.reread);
    RecheckTimes(SwitchDirection(l, mainOn, open, mainOn && !open, env.slackA, env.slackB), env.reread);
  }

  lemma RelayTimes(l: Lid, env: Env)
    ensures SameTimers(l, AllOff(l, env)) && SameTimers(l, ForceOff(l))
    ensures SameTimers(l, SetRelays(l, true, true, false, env)) && SameTimers(l, SetRelays(l, true, false, true, env))
  {
    hide SetRelays, Bus.Do;
    SetRelaysTimes(l, false, false, env);
    SetRelaysTimes(l, true, true, env);
    SetRelaysTimes(l, true, false, env);
  }

  lemma RestDated(l: Lid, env: Env)
    ensures l.state == StartupOpen ==> Dated(l, TickStartup(l, env))
    ensures l.state == Idle ==> Dated(l, TickIdle(l, env))
    ensures l.state == Maintenance ==> Dated(l, TickMaintenance(l, env))
    ensures l.state == OpenStart ==> Dated(l, TickOpenStart(l, env))
    ensures l.state == CloseStart ==> Dated(l, TickCloseStart(l, env))
  {
    hide AllOff, SetRelays, TransitionTo, Healed;
    RelayTimes(l, env);
    forall m: Lid, next ensures
        var l' := TransitionTo(m, next);
        Begins(l', l'.Now()) && l'.state == next && l'.clock == m.clock
    {
      TransitionBegins(m);
    }
    HealedTimes(AllOff(l, env));
  }

  lemma HealedTimes(l: Lid)
    ensures Healed(l.sense.(calibration := false), l.config.distThreshold, l.Now()).holdStart == l.sense.holdStart
  {
  }

  lemma OpeningDated(l: Lid, env: Env)
    requires l.state == Opening
    ensures Dated(l, TickOpening(l, env))
  {
    hide AllOff, ForceOff, TransitionTo, Stalled, Begins;
    forall m: Lid, next ensures
        var l' := TransitionTo(m, next);
        Begins(l', l'.Now()) && l'.state == next && l'.clock == m.clock
    {
      TransitionBegins(m);
    }
  }

  lemma ClosingDated(l: Lid, env: Env)
    requires l.state == Closing
    ensures Dated(l, TickClosing(l, env))
  {
    hide AllOff, ForceOff, TransitionTo, Sees, Stalled, Begins, Closed;
    forall m: Lid, next ensures
        var l' := TransitionTo(m, next);
        Begins(l', l'.Now()) && l'.state == next && l'.clock == m.clock
    {
      TransitionBegins(m);
    }
    ClosedBegins(l.(drive := l.drive.(closeStalls := 0)), env);
  }

  lemma ClosedBegins(l: Lid, env: Env)
    ensures Closed(l, env).state == Idle && Begins(Closed(l, env), Closed(l, env).Now())
  {
    hide AllOff, TransitionTo;
    var off := AllOff(l, env);
    TransitionBegins(off.(sense := off.sense.(cooling := true, cooldownTimer := off.Now(), blindStart := off.Now())));
  }

  lemma EmergencyDated(l: Lid)
    requires l.state == EmergencyStop
    ensures Dated(l, TickEmergency(l))
  {
    hide ForceOff, TransitionTo, Sees, Begins;
    forall m: Lid, next ensures
        var l' := TransitionTo(m, next);
        Begins(l', l'.Now()) && l'.state == next && l'.clock == m.clock
    {
      TransitionBegins(m);
    }
    OffTimes(l);
  }

  lemma RunDated(l: Lid, env: Env)
    requires l.state != Hold
    ensures Dated(l, RunState(l, env))
  {
    hide ForceOff, TickStartup, TickIdle, TickHold, TickMaintenance, TickOpenStart, TickCloseStart, TickOpening,
         TickClosing, TickEmergency, Begins;
    RestDated(l, env);
    RelayTimes(l, env);
    match l.state
    case Opening => OpeningDated(l, env);
    case Closing => ClosingDated(l, env);
    case EmergencyStop => EmergencyDated(l);
    case _ =>
  }

  /** What a tick of the held lid does. */
  lemma HoldTick(l: Lid, env: Env)
    requires l.state == Hold && Filtered(l.sense)
    ensures
      var off, l' := AllOff(l, env), TickHold(l, env);
      var waited := if Occupied(off) then 0 else Since(off.Now(), l.stateTimer);
      && l'.state == (if Since(off.Now(), l.sense.holdStart) >= l.config.maxHoldTime || waited >= l.config.waitTime
                      then CloseStart else Hold)
      && (if l'.state == Hold then
            && l'.sense.holdStart == l.sense.holdStart && l'.clock == off.clock
            && l'.stateTimer == (if Occupied(off) then off.Now() else l.stateTimer)
          else Begins(l', l'.Now()))
  {
    hide AllOff, TransitionTo, Median, Within, Nearer;
    RelayTimes(l, env);
    RelaySense(l, env);
    RelayState(l, env);
    var off := AllOff(l, env);
    NearByMajority(off.sense.window, off.config.distThreshold);
    SeenByMajority(off.sense.window, 0.0);
    forall m: Lid, next ensures
        var l' := TransitionTo(m, next);
        Begins(l', l'.Now()) && l'.state == next && l'.clock == m.clock
    {
      TransitionBegins(m);
    }
  }

  lemma EnterTimes(l: Lid, env: Env)
    ensures
      var l' := EnterProtection(l, env);
      l'.state == BatteryLowShutdown && l'.stateTimer == l.Now()
  {
    hide SetRelays, ForceOff, TransitionTo, TakeSnapshot;
    var critical := l.Power().valid && l.Power().state == Protected;
    var m := l.(drive := l.drive.(lowBatteryOpening := critical));
    TransitionBegins(m);
    RelayTimes(TransitionTo(m, BatteryLowShutdown), env);
  }

  lemma ProtectTimes(l: Lid, valid: bool)
    ensures SameTimers(l, Protect(l, valid))
  {
    hide Bus.Do;
  }

  lemma SuperviseTimes(l: Lid)
    ensures SameTimers(l, SuperviseCharge(l))
  {
    hide Bus.Do, ChargingPowerSafe, TakeSnapshot, StallLimit, Float.Lt, Float.Abs, Restored;
  }

  lemma PeriodicTimes(l: Lid, r: Reading)
    ensures SameTimers(l, PeriodicRead(l, r)) && PeriodicRead(l, r).clock == l.clock
  {
    hide Bus.Do, NextPolicy;
  }

  lemma LeaveState(l: Lid)
    ensures LeaveProtection(l).state == Idle
  {
    hide Bus.Do;
  }

  lemma ServiceDated(l: Lid, env: Env)
    ensures
      var s := ServicePower(l, env).lid;
      SameTimers(l, s) || (l.state != BatteryLowShutdown && s.state == BatteryLowShutdown && Begins(s, l.Now())) ||
      (s.state == Idle && l.state != Idle)
  {
    hide PeriodicRead, SuperviseCharge, Protect, EnterProtection, LeaveProtection, ForceOff, TakeSnapshot;
    PeriodicTimes(l, env.reading);
    var r := PeriodicRead(l, env.reading);
    SuperviseTimes(r);
    RelayTimes(r, env);
    ProtectTimes(r, r.Power().valid);
    EnterTimes(r, env);
    ProtectTimes(EnterProtection(r, env), r.Power().valid);
    LeaveState(r);
  }

  lemma ObservedTimes(l: Lid, raw: real)
    ensures SameTimers(l, Observed(l, raw)) && Observed(l, raw).clock == l.clock
  {
    hide TakeSnapshot, Median, Pushed;
  }

  /** What an operation other than a look at the held lid does to the timers. */
  predicate OpDated(l: Lid, op: Op) {
    var l' := Perform(l, op);
    if Enters(l, op) then Begins(l', Wrap(EntryTime(l, l'))) else SameTimers(l, l')
  }

  lemma TickDated(l: Lid, env: Env)
    requires Inv(l) && !LooksHeld(l, Tick(env))
    ensures OpDated(l, Tick(env))
  {
    hide Inv, ServicePower, Observed, RunState, Begins;
    ServiceDated(l, env);
    IdleBegins();
    var s := ServicePower(l, env);
    ServedState(l, env);
    if !s.done && s.lid.state != OtaUpdating {
      ObservedTimes(s.lid, env.distance);
      var o := Observed(s.lid, env.distance);
      RunDated(o, env);
      RunLeavesProtection(o, env);
    }
  }

  lemma IdleBegins()
    ensures forall l: Lid, now :: l.state == Idle ==> Begins(l, now)
  {
  }

  lemma RunLeavesProtection(l: Lid, env: Env)
    requires l.state != BatteryLowShutdown
    ensures RunState(l, env).state != BatteryLowShutdown
  {
    hide ForceOff, AllOff, TransitionTo, Sees, Stalled, Healed, SetRelays;
    RelayTimes(l, env);
    forall m: Lid, next ensures TransitionTo(m, next).state == next { TransitionBegins(m); }
  }

  lemma CommandDated(l: Lid, op: Op)
    requires op.CmdOpen? || op.CmdClose? || op.CmdReset? || op.CmdMaintain? || op.CmdEndMaintain?
    ensures OpDated(l, op)
  {
    hide TransitionTo, TakeSnapshot;
    forall m: Lid, next ensures
        var l' := TransitionTo(m, next);
        Begins(l', l'.Now()) && l'.state == next && l'.clock == m.clock
    {
      TransitionBegins(m);
    }
  }

  lemma ChargeDated(l: Lid, ttl: u32, env: Env)
    ensures SameTimers(l, RequestChargingClose(l, ttl, env))
  {
    hide Bus.Do, NextPolicy, SetRelays, ChargeAdmitted, Restored;
    RelayTimes(ChargeBegun(ReadSensors(l, env.reading), ttl), env);
  }

  lemma BeginDated(l: Lid, recovery: bool, maintenance: bool)
    ensures OpDated(l, BeginUpdate(recovery, maintenance))
  {
    hide TransitionTo, ForceOff, Restored, TakeSnapshot, QuietMotor, NoLowEvidence, Begins;
    forall m: Lid, next ensures
        var l' := TransitionTo(m, next);
        Begins(l', l'.Now()) && l'.state == next && l'.clock == m.clock
    {
      TransitionBegins(m);
    }
    OffTimes(l);
  }

  lemma EndDated(l: Lid)
    ensures OpDated(l, EndUpdate)
  {
    hide TransitionTo, ForceOff, Restored;
    forall m: Lid, next ensures
        var l' := TransitionTo(m, next);
        Begins(l', l'.Now()) && l'.state == next && l'.clock == m.clock
    {
      TransitionBegins(m);
    }
    OffTimes(l.(ota := l.ota.(recovery := false, maintenance := false)));
  }

  lemma OffTimes(l: Lid)
    ensures ForceOff(l).clock == l.clock && SameTimers(l, ForceOff(l))
  {
  }

  lemma OpTimes(l: Lid, op: Op)
    requires Inv(l) && !LooksHeld(l, op)
    ensures OpDated(l, op)
  {
    hide Inv, Update, ServicePower, RequestChargingClose, TryBeginOta, FinishOta, LooksHeld,
         ForceOpen, ForceClose, ResetEmergency, StartMaintenance, StopMaintenance, OpDated, Begins;
    match op {
      case Tick(env) => TickDated(l, env);
      case OtaPower(env) => PowerDated(l, env);
      case CloseForCharging(ttl, env) => ChargeIsDated(l, ttl, env);
      case BeginUpdate(a, b) => BeginDated(l, a, b);
      case EndUpdate => EndDated(l);
      case Advance(_) => PlainDated(l, op);
      case Configure(_) => PlainDated(l, op);
      case _ => CommandDated(l, op);
    }
  }

  lemma PowerDated(l: Lid, env: Env)
    ensures OpDated(l, OtaPower(env))
  {
    hide ServicePower;
    ServiceDated(l, env);
  }

  lemma ChargeIsDated(l: Lid, ttl: u32, env: Env)
    ensures OpDated(l, CloseForCharging(ttl, env))
  {
    hide RequestChargingClose;
    ChargeDated(l, ttl, env);
  }

  lemma PlainDated(l: Lid, op: Op)
    requires op.Advance? || op.Configure?
    ensures OpDated(l, op)
  {
  }

  /** Looking changes nothing but what is seen and measured. */
  lemma SensedSame(l: Lid, env: Env)
    ensures
      var o := Sensed(l, env);
      && o.state == l.state && o.clock == l.clock && o.stateTimer == l.stateTimer && o.config == l.config
      && o.charge == l.charge && o.policy == PeriodicRead(l, env.reading).policy
  {
    hide Bus.Do, NextPolicy, TakeSnapshot, Median, Pushed;
  }

  // ---- Over runs ----

  /** When the state timer was last set ... */
  function Moment(t: Timed): nat {
    if t.lid.state == Hold then t.occupied else t.entered
  }

  /** ... and where it is of use. */
  predicate Running(l: Lid) {
    l.state != Idle && (l.state == BatteryLowShutdown ==> l.drive.lowBatteryOpening)
  }

  predicate Timely(t: Timed) {
    var l := t.lid;
    && Inv(l) && Filtered(l.sense) && Locked(l.sense)
    && t.entered <= t.occupied <= l.clock
    && (Running(l) ==> l.stateTimer == Wrap(Moment(t)))
    && (l.state == Hold ==> l.sense.holdStart == Wrap(t.entered))
  }

  lemma FilterKept(l: Lid, op: Op)
    requires Inv(l) && Filtered(l.sense) && Locked(l.sense)
    ensures Filtered(Perform(l, op).sense) && Locked(Perform(l, op).sense)
  {
    hide Inv, Perform, Filtered, Fires, Stepped;
    if LooksIdle(l, op) { LookFilters(l, op.env); } else { OpLoose(l, op); }
  }

  lemma LookFilters(l: Lid, env: Env)
    requires Inv(l) && LooksIdle(l, Tick(env)) && Filtered(l.sense) && Locked(l.sense)
    ensures Filtered(Perform(l, Tick(env)).sense) && Locked(Perform(l, Tick(env)).sense)
  {
    hide Inv, Update, Filtered, Fires, Stepped, ServicePower;
    LookDoes(l, env);
  }

  /** What a look at the held lid does: it closes for either of two reasons. */
  lemma HoldLook(l: Lid, env: Env)
    requires Inv(l) && LooksHeld(l, Tick(env)) && Filtered(l.sense)
    ensures
      var off, l' := Judged(l, env), Update(l, env);
      var waited := if Occupied(off) then 0 else Since(off.Now(), l.stateTimer);
      && l'.state == (if Since(off.Now(), l.sense.holdStart) >= l.config.maxHoldTime || waited >= l.config.waitTime
                      then CloseStart else Hold)
      && (if l'.state == Hold then
            && l'.sense.holdStart == l.sense.holdStart && l'.clock == off.clock
            && l'.stateTimer == (if Occupied(off) then off.Now() else l.stateTimer)
          else Begins(l', l'.Now()))
  {
    hide Inv, ServicePower, AllOff, TickHold, Occupied, Filtered, PeriodicRead, Observed, Begins;
    ServedWithoutProtection(l, env);
    PeriodicSense(l, env.reading);
    PeriodicTimes(l, env.reading);
    var r := PeriodicRead(l, env.reading);
    ObservedSense(r, env.distance);
    ObservedTimes(r, env.distance);
    HoldTick(Observed(r, env.distance), env);
  }

  lemma FollowKeeps(t: Timed, op: Op)
    requires Timely(t)
    ensures Timely(Follow(t, op))
  {
    hide Inv, Perform, Filtered, Locked, ServicePower, Occupied, Judged, Prefix;
    var l := t.lid;
    PerformKeeps(l, op);
    PerformExtends(l, op);
    FilterKept(l, op);
    if LooksHeld(l, op) { HeldKeeps(t, op.env); } else { OpTimes(l, op); }
  }

  lemma HeldKeeps(t: Timed, env: Env)
    requires Timely(t) && LooksHeld(t.lid, Tick(env))
    ensures
      var t' := Follow(t, Tick(env));
      && (Running(t'.lid) ==> t'.lid.stateTimer == Wrap(Moment(t')))
      && (t'.lid.state == Hold ==> t'.lid.sense.holdStart == Wrap(t'.entered))
  {
    hide Inv, Update, Filtered, Locked, Occupied, Judged, ServicePower;
    HoldLook(t.lid, env);
  }

  lemma {:induction false} RunIsTimely(t: Timed, ops: seq<Op>)
    requires Timely(t)
    ensures Timely(FollowAll(t, ops)) && FollowAll(t, ops).lid == RunOps(t.lid, ops)
    decreases |ops|
  {
    hide Timely, Perform;
    if ops != [] {
      FollowKeeps(t, ops[0]);
      RunIsTimely(Follow(t, ops[0]), ops[1..]);
    }
  }

  lemma TimelyFromBoot(nvs: Nvs, clock: nat, config: Config, first: Reading, ops: seq<Op>)
    ensures
      var b := Boot(nvs, clock, config, first);
      var t := FollowAll(JustBooted(b), ops);
      Timely(t) && t.lid == RunOps(b, ops)
  {
    hide Boot, RunOps, FollowAll, Inv;
    var b := Boot(nvs, clock, config, first);
    BootKeeps(nvs, clock, config, first);
    BootSense(nvs, clock, config, first);
    BootRests(nvs, clock, config, first);
    FarIsFiltered(b.sense);
    RunIsTimely(JustBooted(b), ops);
  }

  lemma BootRests(nvs: Nvs, clock: nat, config: Config, first: Reading)
    ensures !Running(Boot(nvs, clock, config, first)) && Boot(nvs, clock, config, first).state != Hold
  {
    hide Bus.Do, NextPolicy;
  }

  lemma Measures(now: nat, at: nat)
    requires at <= now
    ensures Since(Wrap(now), Wrap(at)) == Counted(now - at) <= now - at
    ensures now - at < WRAP ==> Counted(now - at) == now - at
  {
    SinceIsElapsed(now, at);
  }

  /** In any run: a tick of the held lid closes it exactly when it has been open for the
      longest hold, or for the hold time since it was last found occupied, both counted
      modulo 2^32; so exactly then in real time within one turn of the counter. */
  lemma HoldEndsExactly(nvs: Nvs, clock: nat, config: Config, first: Reading, ops: seq<Op>, env: Env)
    requires LooksHeld(RunOps(Boot(nvs, clock, config, first), ops), Tick(env))
    ensures
      var t := FollowAll(JustBooted(Boot(nvs, clock, config, first)), ops);
      var off := Judged(t.lid, env);
      var held := off.clock - t.entered;
      var quiet := if Occupied(off) then 0 else off.clock - t.occupied;
      var next := Update(t.lid, env).state;
      && t.lid == RunOps(Boot(nvs, clock, config, first), ops)
      && (next == CloseStart || next == Hold) && 0 <= quiet <= held
      && (next == CloseStart <==> Counted(held) >= t.lid.config.maxHoldTime || Counted(quiet) >= t.lid.config.waitTime)
      && (held < WRAP ==>
            (next == CloseStart <==> held >= t.lid.config.maxHoldTime || quiet >= t.lid.config.waitTime))
  {
    hide Boot, RunOps, FollowAll, Update, Judged, LooksHeld, Occupied, Inv, Filtered, Locked, Counted, Begins;
    TimelyFromBoot(nvs, clock, config, first, ops);
    var t := FollowAll(JustBooted(Boot(nvs, clock, config, first)), ops);
    var off := Judged(t.lid, env);
    IsHeld(t.lid, env);
    HoldLook(t.lid, env);
    LookIsLater(t.lid, env);
    Measures(off.clock, t.entered);
    Measures(off.clock, t.occupied);
    Measures(off.clock, off.clock);
  }

  lemma IsHeld(l: Lid, env: Env)
    requires LooksHeld(l, Tick(env))
    ensures l.state == Hold
  {
    hide ServicePower;
  }

  lemma LookIsLater(l: Lid, env: Env)
    ensures l.clock <= Judged(l, env).clock
  {
    hide PeriodicRead, Observed, AllOff;
    PeriodicTimes(l, env.reading);
    ObservedTimes(PeriodicRead(l, env.reading), env.distance);
    OffLater(Observed(PeriodicRead(l, env.reading), env.distance), env);
  }

  lemma OffLater(l: Lid, env: Env)
    ensures l.clock <= AllOff(l, env).clock
  {
    hide Bus.Do;
  }

  /** Someone is near, whatever the lid opened for, and no sensor deadlock denies it. */
  predicate Someone(s: Sense, threshold: real) {
    Nearer(s.window, threshold) >= 3 && Within(s.window, 0.0) < 3 && !s.deadlock
  }

  predicate Pauses(l: Lid, env: Env) {
    (l.state == Maintenance || l.state == EmergencyStop) && !ServicePower(l, env).done
  }

  lemma MaintenanceEnds(l: Lid, env: Env)
    ensures TickMaintenance(l, env).state ==
            if Since(AllOff(l, env).Now(), l.stateTimer) >= 300000 then CloseStart else l.state
  {
    hide AllOff, TransitionTo;
    RelayTimes(l, env);
    var off := AllOff(l, env);
    TransitionBegins(off.(sense := off.sense.(maintenanceRequested := false)));
  }

  lemma SomeoneIsSeen(l: Lid)
    requires Filtered(l.sense)
    ensures Sees(l) && !l.sense.deadlock <==> Someone(l.sense, l.config.distThreshold)
  {
    hide Nearer, Within, Filtered;
    SightIsMajority(l.sense, l.config.distThreshold);
  }

  lemma EmergencyEnds(l: Lid)
    requires l.state == EmergencyStop && Filtered(l.sense)
    ensures TickEmergency(l).state ==
            if Since(l.Now(), l.stateTimer) < l.config.emergencyRecoveryTime then EmergencyStop
            else if Someone(l.sense, l.config.distThreshold) then OpenStart else Idle
    ensures TickEmergency(l).drive.isolated <==> TickEmergency(l).state == EmergencyStop
  {
    hide ForceOff, TransitionTo, Someone, Filtered;
    OffIsolates(l);
    OffTimes(l);
    ThresholdStays(l);
    RelaySense(l, Env(Reading(NaN, NaN, false), Reading(NaN, NaN, false), 0.0, 0, 0));
    SomeoneIsSeen(l);
    var off := ForceOff(l);
    var m := off.(drive := off.drive.(isolated := false),
                  sense := off.sense.(cooling := true, cooldownTimer := off.Now()));
    TransitionBegins(m);
    TransitionFlagged(m);
  }

  lemma OffIsolates(l: Lid)
    ensures ForceOff(l).drive.isolated
  {
  }

  lemma TransitionFlagged(l: Lid)
    ensures forall next :: TransitionTo(l, next).drive.isolated == l.drive.isolated
  {
    hide Bus.Do;
  }

  /** One tick of a maintenance or an emergency stop. */
  lemma PauseLook(l: Lid, env: Env)
    requires Inv(l) && Filtered(l.sense) && Pauses(l, env)
    ensures
      var s := Sensed(l, env);
      Update(l, env).state ==
      if l.state == Maintenance
      then if Since(Judged(l, env).Now(), l.stateTimer) >= 300000 then CloseStart else Maintenance
      else if Since(l.Now(), l.stateTimer) < l.config.emergencyRecoveryTime then EmergencyStop
      else if Someone(s.sense, l.config.distThreshold) then OpenStart else Idle
    ensures l.state == EmergencyStop ==> (Update(l, env).drive.isolated <==> Update(l, env).state == EmergencyStop)
  {
    hide Inv, ServicePower, TickMaintenance, TickEmergency, PeriodicRead, Observed, AllOff, Filtered, Someone;
    ServedWithoutProtection(l, env);
    PeriodicSense(l, env.reading);
    PeriodicTimes(l, env.reading);
    var r := PeriodicRead(l, env.reading);
    ObservedSense(r, env.distance);
    ObservedTimes(r, env.distance);
    if l.state == Maintenance { MaintenanceEnds(Sensed(l, env), env); } else { EmergencyEnds(Sensed(l, env)); }
  }

  lemma ThresholdStays(l: Lid)
    ensures ForceOff(l).config == l.config
  {
  }

  lemma SightIsMajority(s: Sense, threshold: real)
    requires Filtered(s)
    ensures 0.0 < s.distance < threshold <==> Nearer(s.window, threshold) >= 3 && Within(s.window, 0.0) < 3
  {
    hide Median, Nearer, Within;
    NearByMajority(s.window, threshold);
    SeenByMajority(s.window, 0.0);
  }

  /** In any run: a maintenance is closed by a tick exactly 300 s after it began, and an
      emergency stop is left exactly after the recovery time, counted modulo 2^32: for
      another opening if someone stands there, else for idle. */
  lemma PauseEndsExactly(nvs: Nvs, clock: nat, config: Config, first: Reading, ops: seq<Op>, env: Env)
    requires Pauses(RunOps(Boot(nvs, clock, config, first), ops), env)
    ensures
      var t := FollowAll(JustBooted(Boot(nvs, clock, config, first)), ops);
      var l := t.lid;
      var waited := (if l.state == Maintenance then Judged(l, env).clock else l.clock) - t.entered;
      && l == RunOps(Boot(nvs, clock, config, first), ops)
      && waited >= 0 && (waited < WRAP ==> Counted(waited) == waited)
      && Update(l, env).state ==
        (if l.state == Maintenance then if Counted(waited) >= 300000 then CloseStart else Maintenance
         else if Counted(waited) < l.config.emergencyRecoveryTime then EmergencyStop
         else if Someone(Sensed(l, env).sense, l.config.distThreshold) then OpenStart else Idle)
      && (l.state == EmergencyStop ==> (Update(l, env).drive.isolated <==> Update(l, env).state == EmergencyStop))
  {
    hide Boot, RunOps, FollowAll, Update, Judged, Sensed, Someone, Inv, Filtered, Locked, Counted, ServicePower;
    TimelyFromBoot(nvs, clock, config, first, ops);
    var t := FollowAll(JustBooted(Boot(nvs, clock, config, first)), ops);
    PauseLook(t.lid, env);
    LookIsLater(t.lid, env);
    Measures(Judged(t.lid, env).clock, t.entered);
    Measures(t.lid.clock, t.entered);
  }
}
