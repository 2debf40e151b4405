/** How a charging close and an update begin and end: which operations can start
    them, what holds while they last, and what they leave behind. */
module LidLifecycles {
  import opened Numeric
  import opened BatteryPolicy
  import opened DistanceFilter
  import opened Gpio
  import opened Lid
  import opened LidWiring
  import opened LidInvariant

  predicate AllInput(p: Pins) {
    !p.mainOn && p.aMode == Input && p.bMode == Input
  }

  /** The charging close and the reservation are left alone. */
  predicate Apart(l: Lid, l': Lid) {
    l'.charge == l.charge && l'.ota == l.ota
  }

  lemma RelayFrame(l: Lid, env: Env)
    ensures Apart(l, ForceOff(l)) && ForceOff(l).state == l.state && ForceOff(l).sense == l.sense
    ensures Apart(l, AllOff(l, env)) && AllOff(l, env).state == l.state && AllOff(l, env).sense == l.sense
    ensures !l.charge.active ==>
              && Apart(l, SetRelays(l, true, true, false, env)) && Apart(l, SetRelays(l, true, false, true, env))
              && SetRelays(l, true, true, false, env).state == l.state
    ensures forall next :: Apart(l, TransitionTo(l, next)) && TransitionTo(l, next).state == next
  {
    hide Bus.Do;
  }

  /** Which state a tick of the state machine may go to next. */
  function Successors(s: FsmState): set<FsmState> {
    {s} +
    match s
    case StartupOpen => {OpenStart}
    case Idle => {OpenStart}
    case OpenStart => {Opening}
    case Opening => {Hold, Maintenance}
    case Hold => {CloseStart}
    case CloseStart => {Closing}
    case Closing => {OpenStart, EmergencyStop, Idle}
    case EmergencyStop => {OpenStart, Idle}
    case Maintenance => {CloseStart}
    case BatteryLowShutdown => {Idle}
    case OtaUpdating => {}
  }

  predicate Orderly(l: Lid, l': Lid) {
    Apart(l, l') && l'.state in Successors(l.state)
  }

  lemma RestFrame(l: Lid, env: Env)
    ensures l.state == StartupOpen ==> Orderly(l, TickStartup(l, env))
    ensures l.state == Idle ==> Orderly(l, TickIdle(l, env))
    ensures l.state == Hold ==> Orderly(l, TickHold(l, env))
    ensures l.state == Maintenance ==> Orderly(l, TickMaintenance(l, env))
  {
    hide AllOff, TransitionTo, Healed;
    RelayFrame(l, env);
    var off := AllOff(l, env);
    forall m: Lid, next | Apart(l, m) ensures Apart(l, TransitionTo(m, next)) && TransitionTo(m, next).state == next {
      RelayFrame(m, env);
    }
    assert forall s: Sense :: Apart(l, off.(sense := s));
  }

  lemma OpeningFrame(l: Lid, env: Env)
    requires l.state == Opening
    ensures Orderly(l, TickOpening(l, env))
  {
    hide ForceOff, AllOff, TransitionTo, Stalled;
    forall n: nat ensures
        var d := l.(drive := l.drive.(openStalls := n));
        forall next :: Apart(l, TransitionTo(ForceOff(d), next)) && TransitionTo(ForceOff(d), next).state == next &&
                       Apart(l, TransitionTo(AllOff(d, env), next)) && TransitionTo(AllOff(d, env), next).state == next
    {
      var d := l.(drive := l.drive.(openStalls := n));
      RelayFrame(d, env);
      RelayFrame(ForceOff(d), env);
      RelayFrame(AllOff(d, env), env);
    }
  }

  lemma ClosingFrame(l: Lid, env: Env)
    requires l.state == Closing
    ensures Orderly(l, TickClosing(l, env))
  {
    hide ForceOff, AllOff, TransitionTo, Stalled, Sees;
    var d := l.(drive := l.drive.(closeStalls := 0));
    RelayFrame(d, env);
    RelayFrame(ForceOff(d), env);
    var off := AllOff(d, env);
    RelayFrame(off, env);
    RelayFrame(off.(sense := off.sense.(cooling := true, cooldownTimer := off.Now(), blindStart := off.Now())), env);
  }

  lemma EmergencyFrame(l: Lid, env: Env)
    requires l.state == EmergencyStop
    ensures Orderly(l, TickEmergency(l))
  {
    hide ForceOff, TransitionTo, Sees;
    RelayFrame(l, env);
    var off := ForceOff(l);
    RelayFrame(off.(drive := off.drive.(isolated := false),
                    sense := off.sense.(cooling := true, cooldownTimer := off.Now())), env);
  }

  lemma RunStateFrame(l: Lid, env: Env)
    requires !l.charge.active
    ensures Orderly(l, RunState(l, env))
  {
    hide ForceOff, AllOff, SetRelays, TransitionTo, TickStartup, TickIdle, TickHold, TickMaintenance,
         TickOpening, TickClosing, TickEmergency;
    RelayFrame(l, env);
    match l.state
    case OpenStart => RelayFrame(SetRelays(l, true, true, false, env), env);
    case CloseStart => RelayFrame(SetRelays(l, true, false, true, env), env);
    case Opening => OpeningFrame(l, env);
    case Closing => ClosingFrame(l, env);
    case EmergencyStop => EmergencyFrame(l, env);
    case BatteryLowShutdown =>
    case OtaUpdating =>
    case _ => RestFrame(l, env);
  }

  lemma ServiceFrame(l: Lid, env: Env)
    requires Inv(l) && !l.charge.active
    ensures
      var s := ServicePower(l, env);
      && Apart(l, s.lid)
      && (s.lid.state == l.state || s.lid.state == BatteryLowShutdown ||
          (l.state == BatteryLowShutdown && s.lid.state == Idle))
  {
    hide SafeLog, Pinned, PeriodicRead, Protect, LeaveProtection, EnterProtection, ForceOff, TakeSnapshot;
    PeriodicReadKeeps(l, env.reading);
    var r := PeriodicRead(l, env.reading);
    RelayFrame(r, env);
    ProtectFrame(r, r.Power().valid);
    ProtectFrame(EnterProtection(r, env), r.Power().valid);
    EnterFrame(r, env);
    LeaveFrame(r, env);
  }

  lemma ProtectFrame(l: Lid, valid: bool)
    ensures Apart(l, Protect(l, valid)) && Protect(l, valid).state == l.state
  {
  }

  lemma EnterFrame(l: Lid, env: Env)
    requires !l.charge.active
    ensures Apart(l, EnterProtection(l, env)) && EnterProtection(l, env).state == BatteryLowShutdown
  {
    hide SetRelays, ForceOff, TransitionTo, TakeSnapshot;
    var critical := l.Power().valid && l.Power().state == Protected;
    var m := l.(drive := l.drive.(lowBatteryOpening := critical));
    RelayFrame(m, env);
    RelayFrame(TransitionTo(m, BatteryLowShutdown), env);
  }

  lemma LeaveFrame(l: Lid, env: Env)
    ensures Apart(l, LeaveProtection(l)) && LeaveProtection(l).state == Idle
  {
    hide ForceOff, TransitionTo;
    RelayFrame(l, env);
    var off := ForceOff(l);
    RelayFrame(off.(drive := off.drive.(lowBatteryOpening := false),
                    sense := l.sense.(maintenanceRequested := false, calibration := false, deadlock := false,
                                      deadlockClear := 0, cooling := false, lastDetect := 0,
                                      distance := 999.0, window := ALL_FAR, blindStart := l.Now())), env);
  }

  /** A tick moves along the table, into protection, or from protection back to idle. */
  lemma TickFollowsTable(l: Lid, env: Env)
    requires Inv(l)
    ensures Update(l, env).state in Successors(l.state) + {BatteryLowShutdown}
    ensures !l.charge.active ==> Apart(l, Update(l, env))
  {
    hide SafeLog, Pinned, ServicePower, RunState, Inv;
    ServicePowerKeeps(l, env);
    if !l.charge.active {
      ServiceFrame(l, env);
      var s := ServicePower(l, env);
      if !s.done && s.lid.state != OtaUpdating { RunStateFrame(Observed(s.lid, env.distance), env); }
    }
  }

  // ---- Charging close ----

  lemma RequestFrame(l: Lid, ttl: u32, env: Env)
    requires Inv(l)
    ensures
      var l' := RequestChargingClose(l, ttl, env);
      && (l.charge.active ==> l' == l)
      && (l.charge.used ==> l'.charge == l.charge)
      && l'.state == l.state && l'.ota == l.ota
  {
    hide SafeLog, Pinned, Wired, Metered, SetRelays, ChargingPowerSafe, NextPolicy, TakeSnapshot, ChargeAdmitted, Bus.Do,
         ChargeBegun;
    var read := ReadSensors(l, env.reading);
    var begun := ChargeBegun(read, ttl);
    assert begun.state == l.state && begun.ota == l.ota by { hide ReadSensors; BegunFrame(l, ttl, env); }
    StartFrame(begun, env);
  }

  lemma BegunFrame(l: Lid, ttl: u32, env: Env)
    ensures
      var begun := ChargeBegun(ReadSensors(l, env.reading), ttl);
      begun.state == l.state && begun.ota == l.ota
  {
    hide NextPolicy, Bus.Do, Restored;
  }

  lemma StartFrame(l: Lid, env: Env)
    ensures
      var l' := SetRelays(l, true, false, true, env);
      l'.state == l.state && l'.ota == l.ota
  {
    hide SwitchDirection, Rechecked, Bus.Do, DirectionChanges;
    SwitchFrame();
    RecheckFrame(l, env.reread);
    RecheckFrame(SwitchDirection(l, true, false, true, env.slackA, env.slackB), env.reread);
  }

  lemma RecheckFrame(l: Lid, r: Reading)
    ensures Rechecked(l, r).state == l.state && Rechecked(l, r).ota == l.ota
  {
    hide NextPolicy, Bus.Do, Restored, ChargingPowerSafe, TakeSnapshot;
  }

  lemma ForceOffFrame()
    ensures forall l: Lid :: ForceOff(l).state == l.state && ForceOff(l).charge == l.charge && ForceOff(l).ota == l.ota
  {
  }

  lemma SwitchFrame()
    ensures forall l: Lid, m, o, c, a, b {:trigger SwitchDirection(l, m, o, c, a, b)} ::
              var l' := SwitchDirection(l, m, o, c, a, b);
              l'.state == l.state && l'.charge == l.charge && l'.ota == l.ota
  {
  }

  /** One operation on a running charging close: it stays under a held latch in the
      protection state, and when it ends everything is isolated. Nothing but an admitted
      first request starts one. */
  lemma ChargeLifecycle(l: Lid, op: Op)
    requires Inv(l)
    ensures
      var l' := Perform(l, op);
      && (l.charge.active ==> l'.policy.latch.held && l'.state == BatteryLowShutdown)
      && (l.charge.active && !l'.charge.active ==> AllInput(l'.bus.pins) && l'.charge.result != Running)
      && (!l.charge.active && l'.charge.active ==> op.CloseForCharging? && !l.charge.used)
      && (l.charge.used ==> l'.charge.used)
  {
    hide SafeLog, Pinned, Joined, Metered, Charging, ServicePower, SetRelays, TransitionTo, ForceOff,
         RequestChargingClose, Update, TakeSnapshot, FinishOta, BeginOta, Float.Le, Float.Lt;
    PerformKeeps(l, op);
    HeldIsShown(l);
    ActiveMeans(l);
    ActiveMeans(Perform(l, op));
    match op {
      case Tick(env) =>
        ServicePowerKeeps(l, env);
        UpdateKeeps(l, env);
        TickFollowsTable(l, env);
      case OtaPower(env) =>
        ServicePowerKeeps(l, env);
        if !l.charge.active { ServiceFrame(l, env); }
      case CloseForCharging(ttl, env) => RequestFrame(l, ttl, env);
      case BeginUpdate(a, b) => BeginFrame(l, a, b);
      case EndUpdate =>
        FinishKeeps(l);
        FinishFrame(l);
      case _ => TransitionFrame();
    }
  }

  lemma ActiveMeans(l: Lid)
    requires Inv(l)
    ensures l.charge.active ==> l.charge.used && l.policy.latch.held && l.state == BatteryLowShutdown
    ensures l.charge.result == Running ==> l.charge.active
    ensures l.drive.isolated ==> AllInput(l.bus.pins)
    ensures l.state == OtaUpdating ==> l.drive.isolated && !l.charge.active
  {
  }

  lemma TransitionFrame()
    ensures forall l: Lid, next :: var l' := TransitionTo(l, next);
              l'.charge == l.charge && l'.ota == l.ota && l'.policy == l.policy && l'.state == next
  {
  }

  lemma BeginFrame(l: Lid, recovery: bool, maintenance: bool)
    ensures
      var l' := TryBeginOta(l, recovery, maintenance);
      && l'.charge == l.charge && l'.policy == l.policy && l'.clock == l.clock
      && (if CanStartOta(l, recovery, maintenance)
          then l'.state == OtaUpdating && l'.drive.isolated &&
               l'.ota.used == (l.ota.used || recovery || maintenance) &&
               l'.ota.recovery == recovery && l'.ota.maintenance == maintenance &&
               (recovery || maintenance ==> l'.ota.at == l.Now())
          else l' == l)
  {
    hide CanStartOta, Bus.Do;
  }

  lemma FinishFrame(l: Lid)
    ensures FinishOta(l).charge == l.charge
    ensures FinishOta(l).ota == Reservation(false, false, l.ota.used, l.ota.at)
  {
    hide Bus.Do;
  }

  // ---- Updates ----

  /** An update state is entered only by an admitted reservation, keeps all three relay
      pins in INPUT whatever happens meanwhile, and is left only by finishing, into
      protection exactly when the latch is held. */
  lemma OtaIsolation(l: Lid, op: Op)
    requires Inv(l)
    ensures
      var l' := Perform(l, op);
      && (l.state != OtaUpdating && l'.state == OtaUpdating ==>
            op.BeginUpdate? && CanStartOta(l, op.recovery, op.maintenance))
      && (l'.state == OtaUpdating ==> AllInput(l'.bus.pins))
      && (l.state == OtaUpdating && op != EndUpdate ==> l'.state == OtaUpdating)
      && (op == EndUpdate ==>
            && l'.state == (if l.policy.latch.held then BatteryLowShutdown else Idle)
            && AllInput(l'.bus.pins))
  {
    hide SafeLog, Pinned, Joined, Metered, Charging, ServicePower, SetRelays, TransitionTo, ForceOff,
         RequestChargingClose, Update, TakeSnapshot, FinishOta, TryBeginOta, CanStartOta;
    PerformKeeps(l, op);
    ActiveMeans(l);
    ActiveMeans(Perform(l, op));
    match op {
      case Tick(env) =>
        ServicePowerKeeps(l, env);
        UpdateKeeps(l, env);
        TickFollowsTable(l, env);
      case OtaPower(env) =>
        ServicePowerKeeps(l, env);
        if !l.charge.active { ServiceFrame(l, env); }
      case CloseForCharging(ttl, env) => RequestFrame(l, ttl, env);
      case BeginUpdate(a, b) => BeginFrame(l, a, b);
      case EndUpdate => FinishKeeps(l);
      case _ => TransitionFrame();
    }
  }

  /** What other tasks may do to the controller while an update process runs: anything
      but begin or end an update. */
  predicate Foreign(op: Op) {
    !op.BeginUpdate? && op != EndUpdate
  }

  /** Foreign operations leave the reservation alone. */
  lemma ForeignKeepsReservation(l: Lid, op: Op)
    requires Inv(l) && Foreign(op)
    ensures Perform(l, op).ota == l.ota
    ensures (Perform(l, op).state == OtaUpdating) == (l.state == OtaUpdating)
  {
    hide SafeLog, Pinned, Wired, Metered, Charging, ServicePower, SetRelays, TransitionTo, ForceOff,
         RequestChargingClose, Update, TakeSnapshot, FinishOta, TryBeginOta, CanStartOta;
    OtaIsolation(l, op);
    match op {
      case Tick(env) =>
        UpdateKeeps(l, env);
        if l.charge.active { ChargingServiceFrame(l, env); } else { TickFollowsTable(l, env); }
      case OtaPower(env) =>
        if l.charge.active { ChargingServiceFrame(l, env); } else { ServiceFrame(l, env); }
      case CloseForCharging(ttl, env) => RequestFrame(l, ttl, env);
      case _ => TransitionFrame();
    }
  }

  lemma ChargingServiceFrame(l: Lid, env: Env)
    requires Inv(l) && l.charge.active
    ensures ServicePower(l, env).lid.ota == l.ota
  {
    hide SafeLog, Pinned, Wired, ForceOff, ChargingPowerSafe, TakeSnapshot, PeriodicRead;
    ForceOffFrame();
    PeriodicReadKeeps(l, env.reading);
  }

  lemma {:induction false} ForeignRun(l: Lid, ops: seq<Op>)
    requires Inv(l) && forall i :: 0 <= i < |ops| ==> Foreign(ops[i])
    ensures
      var l' := RunOps(l, ops);
      && Inv(l') && l'.ota == l.ota
      && (l'.state == OtaUpdating) == (l.state == OtaUpdating)
      && (l.state == OtaUpdating ==> AllInput(l'.bus.pins))
    decreases |ops|
  {
    hide Inv, Perform;
    if ops == [] {
      ActiveMeans(l);
    } else {
      PerformKeeps(l, ops[0]);
      ForeignKeepsReservation(l, ops[0]);
      ForeignRun(Perform(l, ops[0]), ops[1..]);
    }
  }

  /** How many recovery or forced reservations a run is granted. */
  function SpecialGrants(l: Lid, ops: seq<Op>): nat
    decreases |ops|
  {
    if ops == [] then 0
    else (if ops[0].BeginUpdate? && (ops[0].recovery || ops[0].maintenance) &&
             CanStartOta(l, ops[0].recovery, ops[0].maintenance) then 1 else 0)
         + SpecialGrants(Perform(l, ops[0]), ops[1..])
  }

  lemma {:induction false} AtMostOneSpecialGrant(l: Lid, ops: seq<Op>)
    requires Inv(l)
    ensures SpecialGrants(l, ops) <= if l.ota.used then 0 else 1
    decreases |ops|
  {
    hide Inv, Perform, TakeSnapshot, RunOps;
    if ops != [] {
      var op := ops[0];
      PerformKeeps(l, op);
      if Foreign(op) {
        ForeignKeepsReservation(l, op);
      } else {
        PerformMeans(l, op);
        FinishFrame(l);
        if op.BeginUpdate? { BeginFrame(l, op.recovery, op.maintenance); }
      }
      AtMostOneSpecialGrant(Perform(l, op), ops[1..]);
    }
  }

  lemma PerformMeans(l: Lid, op: Op)
    ensures op == EndUpdate ==> Perform(l, op) == FinishOta(l)
    ensures op.BeginUpdate? ==> Perform(l, op) == TryBeginOta(l, op.recovery, op.maintenance)
  {
  }
}
