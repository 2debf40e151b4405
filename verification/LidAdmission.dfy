/** What the battery's history admits: which commands are obeyed, and when a tick reaches
    the state machine. */
module LidAdmission {
  import opened BatteryPolicy
  import opened BatteryHistory
  import opened BatteryLatch
  import opened BatterySnapshot
  import opened DistanceFilter
  import opened Gpio
  import opened Lid
  import opened LidWiring
  import opened LidInvariant
  import opened LidLifecycles
  import opened LidDirections
  import opened LidReactions
  import opened LidSense
  import opened LidRecord

  lemma GoodAdmits(l: Lid)
    requires Good(l)
    ensures l.Power().actuationAllowed <==> Admits(BatteryOf(l))
    ensures l.policy.latch.held <==> Held(BatteryOf(l))
  {
    hide Inv, Admits, TakeSnapshot, Replay;
    AdmissionExactly(BatteryOf(l), l.Now());
  }

  // ---- Commands ----

  /** Protection, an update and an emergency stop take no orders. */
  predicate TakesOrders(s: FsmState) {
    s != BatteryLowShutdown && s != OtaUpdating && s != EmergencyStop
  }

  /** Which command moves the lid from which state to which. */
  function Obeyed(op: Op, s: FsmState): FsmState {
    match op
    case CmdOpen => if TakesOrders(s) && s != Opening then OpenStart else s
    case CmdClose => if TakesOrders(s) && s != Closing then CloseStart else s
    case CmdReset => if s == EmergencyStop then Idle else s
    case CmdMaintain =>
      if !TakesOrders(s) || s == Opening || s == OpenStart || s == Maintenance then s
      else if s == Hold || s == StartupOpen then Maintenance
      else OpenStart
    case CmdEndMaintain => if s == Maintenance then CloseStart else s
    case _ => s
  }

  /** Open, close, reset and the start of maintenance are obeyed exactly when the battery
      admits the motor; otherwise they change nothing at all. The end of maintenance is
      always obeyed. */
  lemma CommandsObeyed(l: Lid, op: Op)
    requires Good(l) && op in {CmdOpen, CmdClose, CmdReset, CmdMaintain, CmdEndMaintain}
    ensures
      var l', obeys := Perform(l, op), op == CmdEndMaintain || Admits(BatteryOf(l));
      && l'.state == (if obeys then Obeyed(op, l.state) else l.state)
      && (!obeys ==> l' == l)
      && (op == CmdMaintain && Admits(BatteryOf(l)) && TakesOrders(l.state) ==> l'.sense.maintenanceRequested)
      && (op == CmdReset && l'.state != l.state ==> !l'.drive.isolated && l'.bus == l.bus)
  {
    hide Good, TransitionTo, TakeSnapshot, Admits, Held;
    GoodAdmits(l);
    forall m: Lid, next
      ensures TransitionTo(m, next).state == next
      ensures TransitionTo(m, next).sense.maintenanceRequested == m.sense.maintenanceRequested
    {
      TransitionSense(m, next);
    }
  }

  lemma OrdersObeyed(l: Lid)
    requires Good(l)
    ensures
      var admits := Admits(BatteryOf(l));
      && ForceOpen(l).state == (if admits then Obeyed(CmdOpen, l.state) else l.state)
      && ForceClose(l).state == (if admits then Obeyed(CmdClose, l.state) else l.state)
      && ResetEmergency(l).state == (if admits then Obeyed(CmdReset, l.state) else l.state)
      && StartMaintenance(l).state == (if admits then Obeyed(CmdMaintain, l.state) else l.state)
      && StopMaintenance(l).state == Obeyed(CmdEndMaintain, l.state)
  {
    hide Good, Admits, Obeyed, ForceOpen, ForceClose, ResetEmergency, StartMaintenance, StopMaintenance;
    CommandsObeyed(l, CmdOpen);
    CommandsObeyed(l, CmdClose);
    CommandsObeyed(l, CmdReset);
    CommandsObeyed(l, CmdMaintain);
    CommandsObeyed(l, CmdEndMaintain);
  }

  // ---- Ticks ----

  lemma RelayPolicy(l: Lid, env: Env)
    ensures ForceOff(l).policy == l.policy && AllOff(l, env).policy == l.policy
    ensures !l.charge.active ==>
              && SetRelays(l, true, true, false, env).policy == l.policy
              && SetRelays(l, true, false, true, env).policy == l.policy
    ensures forall next :: TransitionTo(l, next).policy == l.policy
  {
    hide Bus.Do;
  }

  lemma RestPolicy(l: Lid, env: Env)
    ensures TickStartup(l, env).policy == l.policy && TickIdle(l, env).policy == l.policy
    ensures TickHold(l, env).policy == l.policy && TickMaintenance(l, env).policy == l.policy
    ensures TickEmergency(l).policy == l.policy
  {
    hide ForceOff, AllOff, TransitionTo, Healed, Sees;
    RelayPolicy(l, env);
    forall m: Lid, next ensures TransitionTo(m, next).policy == m.policy { RelayPolicy(m, env); }
  }

  lemma StrokePolicy(l: Lid, env: Env)
    ensures TickOpening(l, env).policy == l.policy && TickClosing(l, env).policy == l.policy
  {
    hide ForceOff, AllOff, TransitionTo, Sees, Stalled;
    forall m: Lid ensures AllOff(m, env).policy == m.policy && ForceOff(m).policy == m.policy { RelayPolicy(m, env); }
    forall m: Lid, next ensures TransitionTo(m, next).policy == m.policy { RelayPolicy(m, env); }
  }

  lemma StartPolicy(l: Lid, env: Env)
    requires !l.charge.active
    ensures TickOpenStart(l, env).policy == l.policy && TickCloseStart(l, env).policy == l.policy
  {
    hide SetRelays, TransitionTo;
    RelayPolicy(l, env);
    forall m: Lid, next ensures TransitionTo(m, next).policy == m.policy { RelayPolicy(m, env); }
  }

  lemma RunPolicy(l: Lid, env: Env)
    requires !l.charge.active
    ensures RunState(l, env).policy == l.policy
  {
    hide ForceOff, TickStartup, TickIdle, TickHold, TickMaintenance, TickOpenStart, TickCloseStart, TickOpening,
         TickClosing, TickEmergency;
    RelayPolicy(l, env);
    RestPolicy(l, env);
    StrokePolicy(l, env);
    StartPolicy(l, env);
  }

  /** A tick takes at most one reading outside a charging close, and decides on it. */
  lemma TickPolicy(l: Lid, env: Env)
    requires Inv(l) && !l.charge.active
    ensures
      var r := PeriodicRead(l, env.reading);
      && Update(l, env).policy == r.policy && r.charge == l.charge && r.state == l.state && r.clock == l.clock
      && r.drive == l.drive && r.config == l.config && r.stateTimer == l.stateTimer
  {
    hide SafeLog, Pinned, PeriodicRead, SuperviseCharge, Protect, EnterProtection, LeaveProtection, ForceOff, TakeSnapshot,
         RunState, Observed, Wired, Metered, Charging;
    PeriodicReadKeeps(l, env.reading);
    var r := PeriodicRead(l, env.reading);
    RelayPolicy(r, env);
    PowerPolicy(r, env);
    PowerPolicy(EnterProtection(r, env), env);
    ObservedPolicy(r, env.distance);
    RunPolicy(Observed(r, env.distance), env);
  }

  lemma PowerPolicy(l: Lid, env: Env)
    ensures Protect(l, true).policy == l.policy && Protect(l, false).policy == l.policy
    ensures LeaveProtection(l).policy == l.policy
    ensures !l.charge.active ==> EnterProtection(l, env).policy == l.policy
  {
    hide ForceOff, SetRelays, TransitionTo, TakeSnapshot;
    forall m: Lid, next ensures TransitionTo(m, next).policy == m.policy && TransitionTo(m, next).charge == m.charge {
      RelayPolicy(m, env);
      RelayFrame(m, env);
    }
    forall m: Lid
      ensures ForceOff(m).policy == m.policy
      ensures !m.charge.active ==> SetRelays(m, true, true, false, env).policy == m.policy
    {
      RelayPolicy(m, env);
    }
  }

  lemma ObservedPolicy(l: Lid, raw: real)
    ensures Observed(l, raw).policy == l.policy && Observed(l, raw).charge == l.charge
  {
    hide TakeSnapshot, Median, Pushed;
  }

  /** A tick in a resting state reaches the state machine exactly when the battery, with
      the reading of this tick, admits the motor, and in a motion state exactly when the
      latch is free. */
  lemma TicksAdmitted(l: Lid, env: Env)
    requires Good(l) && (Resting(l.state) || l.InMotion())
    ensures
      var h := BatteryOf(Update(l, env));
      !ServicePower(l, env).done <==> if Resting(l.state) then Admits(h) else !Held(h)
  {
    hide Inv, Remembered, PeriodicRead, SuperviseCharge, Protect, EnterProtection, LeaveProtection, ForceOff, TakeSnapshot,
         Update, Admits, Held;
    InvCharge(l);
    GoodKeeps(l, Tick(env));
    TickPolicy(l, env);
    GoodAdmits(Update(l, env));
    var r := PeriodicRead(l, env.reading);
    HeldIsShown(r);
    AdmissionIsPolicy(r, Update(l, env));
    UpdateIsPerform(l, env);
  }

  lemma UpdateIsPerform(l: Lid, env: Env)
    ensures Perform(l, Tick(env)) == Update(l, env)
  {
  }

  lemma AdmissionIsPolicy(l: Lid, l': Lid)
    requires l.policy == l'.policy
    ensures l.Power().actuationAllowed == l'.Power().actuationAllowed
    ensures l.Power().protectedMode == l'.Power().protectedMode
  {
  }
}
