/** What makes a running stroke go on, and what ends it. */
module LidReactions {
  import opened Numeric
  import opened BatteryPolicy
  import opened Gpio
  import opened Lid
  import opened LidWiring
  import opened LidInvariant
  import opened LidLifecycles
  import opened LidDirections

  /** The controller as the state machine of this tick sees it. */
  function Sensed(l: Lid, env: Env): Lid {
    Observed(PeriodicRead(l, env.reading), env.distance)
  }

  predicate PersonInTheWay(l: Lid) {
    !l.sense.calibration && Sees(l) && !l.sense.deadlock
  }

  /** Overcurrent ticks in a row, counted after the first half second. */
  function Stalls(before: nat, l: Lid): nat {
    if Since(l.Now(), l.stateTimer) > 500 && Stalled(l) then before + 1 else 0
  }

  lemma StrokeIsServed(l: Lid, env: Env)
    requires Inv(l) && (l.state == Opening || l.state == Closing)
    ensures
      var r := PeriodicRead(l, env.reading);
      && Wired(r) && Inv(Update(l, env))
      && r == l.(bus := r.bus, lastPowerReading := r.lastPowerReading, motorCurrent := r.motorCurrent,
                 lastVerified := r.lastVerified, policy := r.policy)
      && (if r.policy.latch.held then Update(l, env).state == BatteryLowShutdown
          else r.bus.pins.strokes == 0 && Update(l, env) == RunState(Sensed(l, env), env))
  {
    hide SafeLog, Pinned, PeriodicRead, SuperviseCharge, EnterProtection, LeaveProtection, ForceOff, TakeSnapshot,
         Metered, RunState, Observed, Wired, Protect;
    PeriodicReadKeeps(l, env.reading);
    UpdateKeeps(l, env);
    var r := PeriodicRead(l, env.reading);
    HeldIsShown(r);
    EnterFrame(r, env);
    ProtectFrame(EnterProtection(r, env), r.Power().valid);
  }

  lemma ObservedFrame(l: Lid, distance: real)
    requires Wired(l)
    ensures Wired(Observed(l, distance)) && Observed(l, distance) == l.(sense := Observed(l, distance).sense)
  {
    hide SafeLog, Pinned, TakeSnapshot;
  }

  /** After a tick of a close the main relay is still energised only if no person is in the
      way, the time is not over and there are not three stalls in a row, or for the stroke
      of a protection that has just begun. A person in the way reopens. */
  lemma ClosingGoesOn(l: Lid, env: Env)
    requires Inv(l) && l.state == Closing
    ensures
      var l', o := Update(l, env), Sensed(l, env);
      var stalls := Stalls(l.drive.closeStalls, o);
      if o.policy.latch.held then l'.state == BatteryLowShutdown
      else if stalls >= 3 then l'.state == EmergencyStop && AllInput(l'.bus.pins)
      else if PersonInTheWay(o) then l'.state == OpenStart && !l'.bus.pins.mainOn
      else if Since(o.Now(), o.stateTimer) >= o.config.actuatorTime then l'.state == Idle && !l'.bus.pins.mainOn
      else l'.state == Closing && l'.drive.closeStalls == stalls && l'.bus.pins.mainOn == l.bus.pins.mainOn
  {
    hide SafeLog, Pinned, PeriodicRead, Update, Observed, ForceOff, AllOff, TransitionTo, Inv, Stalled, Closed;
    StrokeIsServed(l, env);
    var r := PeriodicRead(l, env.reading);
    ObservedFrame(r, env.distance);
    var o := Sensed(l, env);
    ReadKeepsMain(l, env.reading);
    if !r.policy.latch.held {
      var d := o.(drive := o.drive.(closeStalls := Stalls(l.drive.closeStalls, o)));
      assert d.(drive := d.drive.(closeStalls := 0)) == o.(drive := o.drive.(closeStalls := 0));
      StoppedBy(o.(drive := o.drive.(closeStalls := 0)), env);
      EndOfClose(o.(drive := o.drive.(closeStalls := 0)), env);
    }
  }

  lemma ReadKeepsMain(l: Lid, r: Reading)
    ensures PeriodicRead(l, r).bus.pins.mainOn == l.bus.pins.mainOn
  {
    hide NextPolicy;
  }

  lemma StoppedBy(l: Lid, env: Env)
    requires Wired(l) && l.bus.pins.strokes == 0
    ensures forall next :: AllInput(TransitionTo(ForceOff(l), next).bus.pins) && TransitionTo(ForceOff(l), next).state == next
    ensures forall next :: !TransitionTo(AllOff(l, env), next).bus.pins.mainOn && TransitionTo(AllOff(l, env), next).state == next
  {
    hide SafeLog, Pinned, ForceOff, AllOff, TransitionTo;
    ForceOffWired(l);
    AllOffWired(l, env);
    forall next
      ensures AllInput(TransitionTo(ForceOff(l), next).bus.pins) && TransitionTo(ForceOff(l), next).state == next
      ensures !TransitionTo(AllOff(l, env), next).bus.pins.mainOn && TransitionTo(AllOff(l, env), next).state == next
    {
      TransitionWired(ForceOff(l), next);
      TransitionWired(AllOff(l, env), next);
    }
  }

  lemma EndOfClose(l: Lid, env: Env)
    requires Wired(l) && l.bus.pins.strokes == 0
    ensures Closed(l, env).state == Idle && !Closed(l, env).bus.pins.mainOn
  {
    hide SafeLog, Pinned, AllOff, TransitionTo;
    AllOffWired(l, env);
    var off := AllOff(l, env);
    TransitionWired(off.(sense := off.sense.(cooling := true, cooldownTimer := off.Now(), blindStart := off.Now())), Idle);
  }

  /** The same for an opening stroke, which a person does not stop. */
  lemma OpeningGoesOn(l: Lid, env: Env)
    requires Inv(l) && l.state == Opening
    ensures
      var l', o := Update(l, env), Sensed(l, env);
      var stalls := Stalls(l.drive.openStalls, o);
      if o.policy.latch.held then l'.state == BatteryLowShutdown
      else if stalls >= 3 then l'.state == Hold && AllInput(l'.bus.pins)
      else if Since(o.Now(), o.stateTimer) >= o.config.actuatorTime then
        l'.state == (if o.sense.maintenanceRequested then Maintenance else Hold) && !l'.bus.pins.mainOn
      else l'.state == Opening && l'.drive.openStalls == stalls && l'.bus.pins.mainOn == l.bus.pins.mainOn
  {
    hide SafeLog, Pinned, PeriodicRead, Update, Observed, ForceOff, AllOff, TransitionTo, Inv, Sees, Stalled;
    StrokeIsServed(l, env);
    var r := PeriodicRead(l, env.reading);
    ObservedFrame(r, env.distance);
    ReadKeepsMain(l, env.reading);
    var o := Sensed(l, env);
    if !r.policy.latch.held {
      StoppedBy(o.(drive := o.drive.(openStalls := 0)), env);
      RelayFrame(o.(drive := o.drive.(openStalls := 0)), env);
    }
  }

  // ---- Resting states ----

  predicate Resting(s: FsmState) {
    s == StartupOpen || s == Idle || s == Hold || s == EmergencyStop || s == Maintenance
  }

  lemma StillAfter(l: Lid, next: FsmState)
    requires Wired(l) && l.bus.pins.strokes == 0 && !l.bus.pins.mainOn
    ensures TransitionTo(l, next).state == next && !TransitionTo(l, next).bus.pins.mainOn
  {
    hide SafeLog, Pinned, TransitionTo;
    TransitionWired(l, next);
  }

  lemma SenseStaysStill(l: Lid)
    requires Wired(l) && l.bus.pins.strokes == 0 && !l.bus.pins.mainOn
    ensures forall s: Sense ::
              var m := l.(sense := s); Wired(m) && m.bus.pins.strokes == 0 && !m.bus.pins.mainOn
    ensures forall t: u32 ::
              var m := l.(stateTimer := t); Wired(m) && m.bus.pins.strokes == 0 && !m.bus.pins.mainOn
  {
    hide SafeLog, Pinned;
  }

  lemma RestIsStill(o: Lid, env: Env)
    requires Wired(o) && o.bus.pins.strokes == 0 && Resting(o.state)
    requires o.state == EmergencyStop ==> !o.drive.lastOpen
    ensures !RunState(o, env).bus.pins.mainOn
  {
    hide SafeLog, Pinned, TransitionTo, AllOff, ForceOff, Wired, Healed, Bus.Do;
    AllOffWired(o, env);
    var off := AllOff(o, env);
    SenseStaysStill(off);
    forall m: Lid, next | Wired(m) && m.bus.pins.strokes == 0 && !m.bus.pins.mainOn
      ensures !TransitionTo(m, next).bus.pins.mainOn
    {
      StillAfter(m, next);
    }
    if o.state == EmergencyStop { EmergencyIsStill(o); }
  }

  lemma ForceOffStops(l: Lid)
    ensures !ForceOff(l).bus.pins.mainOn
  {
  }

  lemma EmergencyIsStill(o: Lid)
    requires Wired(o) && o.bus.pins.strokes == 0 && o.state == EmergencyStop && !o.drive.lastOpen
    ensures !TickEmergency(o).bus.pins.mainOn
  {
    hide SafeLog, Pinned, TransitionTo, ForceOff;
    ForceOffWired(o);
    ForceOffStops(o);
    var off := ForceOff(o);
    var m := off.(drive := off.drive.(isolated := false), sense := off.sense.(cooling := true, cooldownTimer := off.Now()));
    StillAfter(m, OpenStart);
    StillAfter(m, Idle);
  }

  /** In a resting state a tick that is left to the state machine keeps the motor off and
      leaves the state only for its one or two successors. */
  lemma RestingGoesOn(l: Lid, env: Env)
    requires Inv(l) && Resting(l.state) && !ServicePower(l, env).done
    ensures !Update(l, env).bus.pins.mainOn && Update(l, env).state in Successors(l.state)
  {
    hide SafeLog, Pinned, PeriodicRead, RunState, ForceOff, AllOff, Observed, ServicePower, Wired;
    ServedWithoutProtection(l, env);
    InvSteers(l);
    ObservedFrame(PeriodicRead(l, env.reading), env.distance);
    RestIsStill(Sensed(l, env), env);
    RunStateFrame(Sensed(l, env), env);
  }

  /** A charging close that outlives a tick is inside its stroke time and its time to live,
      on a valid and safe voltage, and after its first half second with fewer than three
      stalls in a row. Anything else has ended it, with every relay pin in INPUT. */
  lemma ChargingGoesOn(l: Lid, env: Env)
    requires Inv(l) && l.charge.active
    ensures
      var l' := Update(l, env);
      if l'.charge.active then
        && Since(l'.Now(), l'.charge.at) < 3800 && Since(l'.Now(), l'.charge.at) < l'.config.actuatorTime
        && Since(l'.Now(), l'.charge.requestAt) < l'.charge.ttl <= CHARGE_TTL_MS
        && l'.Power().valid && ChargingPowerSafe(l')
        && (Since(l'.Now(), l'.charge.at) > 500 ==> l'.charge.stalls < 3)
      else AllInput(l'.bus.pins) && l'.policy.latch.held
  {
    hide SafeLog, Pinned, PeriodicRead, ForceOff, TakeSnapshot, ChargingPowerSafe, Wired, Metered, Stalled, StallLimit;
    PeriodicReadKeeps(l, env.reading);
    UpdateKeeps(l, env);
    ChargeLifecycle(l, Tick(env));
    var r := PeriodicRead(l, env.reading);
    SafetyIgnoresStalls(r);
  }

  lemma SafetyIgnoresStalls(l: Lid)
    ensures forall n: nat ::
              var m := l.(charge := l.charge.(stalls := n)); ChargingPowerSafe(m) == ChargingPowerSafe(l) && m.Power() == l.Power()
  {
    hide TakeSnapshot;
  }
}
