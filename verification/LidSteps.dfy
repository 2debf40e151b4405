/** What each step does to a lid with nothing wrong: a good battery, no overcurrent, no
    delay longer than asked. Concrete runs are made of these. */
module LidSteps {
  import opened Numeric
  import opened BatteryPolicy
  import opened DistanceFilter
  import opened Gpio
  import opened Lid
  import opened LidWiring
  import opened LidInvariant
  import opened LidDirections
  import opened LidReactions
  import opened LidSense
  import opened LidTimes
  import opened LidSight
  import opened ZeroTimer

  // ---- Steps of a lid with nothing wrong ----

  /** The usual configuration with some cooldown, a good battery, no overcurrent, and the
      directions chosen as the state wants them. */
  predicate Fine(l: Lid) {
    && Inv(l) && Filtered(l.sense) && Locked(l.sense) && !l.sense.calibration
    && l.config == CONFIG.(cooldownTime := l.config.cooldownTime)
    && Charged(l.policy) && !Stalled(l)
    && l.drive.lastOpen == (l.state == Opening) && l.drive.lastClose == (l.state == Closing)
  }

  /** The good reading, some distance, and no delay longer than asked. */
  predicate Benign(env: Env) {
    env == Calm().(distance := env.distance)
  }

  /** Someone 20 cm away. */
  function Visit(): Env {
    Calm().(distance := 20.0)
  }

  predicate Tickable(s: FsmState) {
    s != BatteryLowShutdown && s != OtaUpdating
  }

  lemma FineServed(l: Lid, env: Env)
    requires Fine(l) && Benign(env) && Tickable(l.state)
    ensures
      var r := PeriodicRead(l, env.reading);
      && Senses(l, Tick(env)) && Charged(r.policy) && !Stalled(r) && r.drive == l.drive && !r.charge.active
  {
    hide SafeLog, Pinned, Sampled, SuperviseCharge, Protect, EnterProtection, LeaveProtection, ForceOff, Inv, TakeSnapshot,
         Filtered, Locked, Bus.Do;
    InvCharge(l);
    HealthySample(l.policy, l.Now(), l.config.voltageShutdownLimit);
    HealthyPolicyPower(PeriodicRead(l, env.reading));
  }

  /** The controller of this tick differs only in what it has read and seen. */
  lemma FineTick(l: Lid, env: Env)
    requires Fine(l) && Benign(env) && Tickable(l.state)
    ensures
      var o := Sensed(l, env);
      && Perform(l, Tick(env)) == RunState(o, env) && Wired(o) && Inv(RunState(o, env))
      && Filtered(o.sense) && Filtered(RunState(o, env).sense) && Locked(RunState(o, env).sense)
      && Charged(o.policy) && !Stalled(o) && !o.charge.active && o.drive == l.drive && o.state == l.state
      && o.clock == l.clock && o.stateTimer == l.stateTimer && o.config == l.config
      && o.sense == l.sense.(sensorTimer := o.sense.sensorTimer, window := o.sense.window,
                             distance := o.sense.distance, cooling := o.sense.cooling)
  {
    hide Inv, Update, ServicePower, PeriodicRead, Observed, RunState, Filtered, Locked, Charged, Stalled;
    FineServed(l, env);
    UpdateSenses(l, env);
    SensedSame(l, env);
    ServedWithoutProtection(l, env);
    PeriodicSense(l, env.reading);
    var r := PeriodicRead(l, env.reading);
    ObservedSense(r, env.distance);
    ObservedFrame(r, env.distance);
    SameStall(r, Observed(r, env.distance));
    PerformKeeps(l, Tick(env));
    FilterKept(l, Tick(env));
  }

  lemma SameStall(l: Lid, l': Lid)
    requires l'.config == l.config && l'.motorCurrent == l.motorCurrent
    ensures Stalled(l') == Stalled(l)
  {
  }

  /** Stopping from a stroke takes the two contact delays, from rest no time. */
  lemma StopExactly(l: Lid, env: Env)
    requires Benign(env)
    ensures
      var off := AllOff(l, env);
      off == l.(bus := off.bus, clock := l.clock + if l.drive.lastOpen || l.drive.lastClose then 200 else 0,
                drive := l.drive.(lastOpen := false, lastClose := false))
  {
    hide Bus.Do;
  }

  lemma StartExactly(l: Lid, open: bool, env: Env)
    requires Benign(env) && !l.charge.active && !l.drive.lastOpen && !l.drive.lastClose
    ensures
      var on := SetRelays(l, true, open, !open, env);
      on == l.(bus := on.bus, clock := l.clock + 200,
               drive := l.drive.(lastOpen := open, lastClose := !open, isolated := false))
  {
    hide Bus.Do;
  }

  lemma MoveExactly(l: Lid, next: FsmState)
    ensures TransitionTo(l, next) == Moved(l, next).(bus := TransitionTo(l, next).bus)
  {
  }

  /** The start of a stroke. */
  lemma StartTick(l: Lid, env: Env)
    requires Fine(l) && Benign(env) && (l.state == OpenStart || l.state == CloseStart)
    ensures
      var l', o := Perform(l, Tick(env)), Sensed(l, env);
      && Fine(l') && l'.state == (if l.state == OpenStart then Opening else Closing)
      && l'.clock == l.clock + 200 && l'.stateTimer == l'.Now() && l'.config == l.config
      && l'.sense == o.sense.(lastDetect := 0)
  {
    hide Inv, SetRelays, TransitionTo, Sensed, Filtered, Locked, Charged, Perform, Wired;
    FineTick(l, env);
    var o, open := Sensed(l, env), l.state == OpenStart;
    StartExactly(o, open, env);
    MoveExactly(SetRelays(o, true, open, !open, env), if open then Opening else Closing);
  }

  /** The end of an opening. */
  lemma OpenedTick(l: Lid, env: Env)
    requires Fine(l) && Benign(env) && l.state == Opening && Since(l.Now(), l.stateTimer) >= 3800
    ensures
      var l', o := Perform(l, Tick(env)), Sensed(l, env);
      && Fine(l') && l'.state == (if l.sense.maintenanceRequested then Maintenance else Hold)
      && l'.clock == l.clock + 200 && l'.stateTimer == l'.Now() && l'.config == l.config
      && l'.sense == o.sense.(lastDetect := 0, holdStart := if l'.state == Hold then l'.Now() else o.sense.holdStart)
  {
    hide Inv, AllOff, TransitionTo, Sensed, Filtered, Locked, Charged, Perform, ForceOff, Wired;
    FineTick(l, env);
    var o := Sensed(l, env);
    var d := o.(drive := o.drive.(openStalls := 0));
    StopExactly(d, env);
    MoveExactly(AllOff(d, env), if o.sense.maintenanceRequested then Maintenance else Hold);
  }

  /** The longest hold is over. */
  lemma HeldTooLong(l: Lid, env: Env)
    requires Fine(l) && Benign(env) && l.state == Hold && Since(l.Now(), l.sense.holdStart) >= 180000
    ensures
      var l', o := Perform(l, Tick(env)), Sensed(l, env);
      && Fine(l') && l'.state == CloseStart && l'.clock == l.clock && l'.config == l.config
      && l'.sense == o.sense.(lastDetect := 0, deadlock := true)
  {
    hide Inv, AllOff, TransitionTo, Sensed, Filtered, Locked, Charged, Perform, Wired;
    FineTick(l, env);
    var o := Sensed(l, env);
    StopExactly(o, env);
    var off := AllOff(o, env);
    MoveExactly(off.(sense := off.sense.(deadlock := true)), CloseStart);
  }

  /** The end of a close that nobody stops. */
  lemma ClosedTick(l: Lid, env: Env)
    requires Fine(l) && Benign(env) && l.state == Closing && Since(l.Now(), l.stateTimer) >= 3800
    requires l.sense.deadlock || Nearer(Sensed(l, env).sense.window, 50.0) < 3
    ensures
      var l', o := Perform(l, Tick(env)), Sensed(l, env);
      && Fine(l') && l'.state == Idle && l'.clock == l.clock + 200 && l'.config == l.config
      && l'.sense == o.sense.(lastDetect := 0, cooling := true, cooldownTimer := l'.Now(), blindStart := l'.Now())
  {
    hide Inv, AllOff, TransitionTo, Sensed, Locked, Charged, Perform, ForceOff, Wired, Nearer, Median;
    FineTick(l, env);
    var o := Sensed(l, env);
    NearByMajority(o.sense.window, 50.0);
    var d := o.(drive := o.drive.(closeStalls := 0));
    StopExactly(d, env);
    var off := AllOff(d, env);
    MoveExactly(off.(sense := off.sense.(cooling := true, cooldownTimer := off.Now(), blindStart := off.Now())), Idle);
  }

  lemma MaintenanceTick(l: Lid, env: Env)
    requires Fine(l) && Benign(env) && l.state == Maintenance && Since(l.Now(), l.stateTimer) < 300000
    ensures
      var l', o := Perform(l, Tick(env)), Sensed(l, env);
      && Fine(l') && l'.state == Maintenance && l'.clock == l.clock && l'.stateTimer == l.stateTimer
      && l'.config == l.config && l'.sense == o.sense
  {
    hide Inv, AllOff, TransitionTo, Sensed, Filtered, Locked, Charged, Perform, Wired;
    FineTick(l, env);
    StopExactly(Sensed(l, env), env);
  }

  /** An idle look under a deadlock never opens the lid. */
  lemma DeadlockedTick(l: Lid, env: Env)
    requires Fine(l) && Benign(env) && l.state == Idle && l.sense.deadlock
    ensures
      var l', o := Perform(l, Tick(env)), Sensed(l, env);
      && Fine(l') && l'.state == Idle && l'.clock == l.clock && l'.config == l.config
      && l'.sense == Healed(o.sense, 50.0, l.Now()).(lastDetect := 0)
  {
    hide Inv, AllOff, TransitionTo, Sensed, Filtered, Locked, Charged, Perform, Wired;
    FineTick(l, env);
    StopExactly(Sensed(l, env), env);
  }

  /** The blind time by the counter. */
  predicate Blinded(s: Sense, now: u32) {
    s.blindStart != 0 && Since(now, s.blindStart) < 3000
  }

  /** An idle look at a visitor, as the filter sees it. */
  predicate Welcomes(s: Sense, now: u32) {
    Nearer(s.window, 50.0) >= 3 && Within(s.window, 2.0) < 3 && !Blinded(s, now) && !s.cooling
  }

  /** An idle look without a deadlock. */
  lemma IdleTick(l: Lid, env: Env)
    requires Fine(l) && Benign(env) && l.state == Idle && !l.sense.deadlock
    ensures
      var l', o := Perform(l, Tick(env)), Sensed(l, env);
      var look := Look(l.clock, Welcomes(o.sense, l.Now()));
      && l'.clock == l.clock && l'.config == l.config
      && (if Fires(l.sense.lastDetect, look, 1000) then l'.state == OpenStart
          else Fine(l') && l'.state == Idle && l'.sense == o.sense.(lastDetect := Stepped(l.sense.lastDetect, look)))
  {
    hide Inv, AllOff, TransitionTo, Sensed, Locked, Charged, Perform, Wired, Nearer, Within, Median;
    FineTick(l, env);
    var o := Sensed(l, env);
    StopExactly(o, env);
    NearByMajority(o.sense.window, 50.0);
    SeenByMajority(o.sense.window, 2.0);
    LockedMeans(l.sense);
    NoDeadlock(o.sense, l.Now());
    MoveExactly(AllOff(o, env).(sense := o.sense.(lastDetect := 0)), OpenStart);
  }

  lemma LockedMeans(s: Sense)
    requires Locked(s) && !s.deadlock
    ensures s.deadlockClear == 0
  {
  }

  lemma NoDeadlock(s: Sense, now: u32)
    requires !s.deadlock && s.deadlockClear == 0
    ensures Healed(s, 50.0, now) == s
  {
  }

  lemma FineOrder(l: Lid, op: Op)
    requires Fine(l) && l.state == Idle && (op == CmdOpen || op == CmdClose)
    ensures
      var l' := Perform(l, op);
      && Fine(l') && l'.state == (if op == CmdOpen then OpenStart else CloseStart)
      && l'.clock == l.clock && l'.config == l.config && l'.sense.window == l.sense.window
      && l'.sense == l.sense.(
        lastDetect := 0, deadlock := false, cooling := false, deadlockClear := 0,
        maintenanceRequested := op == CmdOpen && l.sense.maintenanceRequested)
  {
    hide Inv, TransitionTo, TakeSnapshot, Filtered, Charged, Bus.Do;
    PerformKeeps(l, op);
    FilterKept(l, op);
    HealthyPolicyPower(l);
    MoveExactly(l.(sense := l.sense.(deadlock := false, cooling := false, deadlockClear := 0)), OpenStart);
    MoveExactly(l.(sense := l.sense.(maintenanceRequested := false, deadlock := false, cooling := false,
                                     deadlockClear := 0)), CloseStart);
  }

  lemma FineMaintenance(l: Lid, op: Op)
    requires Fine(l) && (op == CmdMaintain || op == CmdEndMaintain)
    requires l.state == if op == CmdMaintain then Idle else Maintenance
    ensures
      var l' := Perform(l, op);
      && Fine(l') && l'.state == (if op == CmdMaintain then OpenStart else CloseStart)
      && l'.clock == l.clock && l'.config == l.config
      && l'.sense == l.sense.(lastDetect := 0, maintenanceRequested := op == CmdMaintain)
  {
    hide Inv, TransitionTo, TakeSnapshot, Filtered, Charged, Bus.Do;
    PerformKeeps(l, op);
    FilterKept(l, op);
    HealthyPolicyPower(l);
    MoveExactly(l.(sense := l.sense.(maintenanceRequested := true)), OpenStart);
    MoveExactly(l.(sense := l.sense.(maintenanceRequested := false)), CloseStart);
  }

  lemma FineWait(l: Lid, ms: nat)
    requires Fine(l)
    ensures Fine(Perform(l, Advance(ms))) && Perform(l, Advance(ms)) == l.(clock := l.clock + ms)
  {
    hide Inv, Filtered, Locked;
    PerformKeeps(l, Advance(ms));
  }

  // ---- What the sensor shows ----

  lemma StaysFar(l: Lid, env: Env)
    requires l.sense.window == ALL_FAR && env.distance == FAR
    ensures Sensed(l, env).sense.window == ALL_FAR
  {
    hide SensePeriod, Sensed, Median;
    ObservedSight(l, env);
  }

  lemma Takes(l: Lid, env: Env)
    requires Since(l.Now(), l.sense.sensorTimer) >= 100
    ensures Sensed(l, env).sense.window == Pushed(l.sense.window, env.distance)
    ensures Sensed(l, env).sense.sensorTimer == l.Now()
  {
    hide Sensed, Median, Pushed, PeriodicRead, TakeSnapshot;
    ObservedSight(l, env);
  }

  lemma LooksOften(l: Lid, env: Env)
    ensures Since(l.Now(), Sensed(l, env).sense.sensorTimer) < 100
  {
    hide Sensed, Median, Pushed, PeriodicRead, TakeSnapshot;
    ObservedSight(l, env);
  }

  /** Some time, and then a tick. */
  function Later(l: Lid, ms: nat, env: Env): Lid {
    Perform(Perform(l, Advance(ms)), Tick(env))
  }

  /** Some time, then an order, then a tick. */
  function OrderedLater(l: Lid, ms: nat, op: Op, env: Env): Lid {
    Perform(Perform(Perform(l, Advance(ms)), op), Tick(env))
  }

  lemma FineBoot(clock: nat, config: Config)
    requires config == CONFIG.(cooldownTime := config.cooldownTime)
    ensures
      var l := Boot(Nvs(false, false), clock, config, Calm().reading);
      && Fine(l) && l.config == config && l.state == Idle && l.clock == clock && l.sense.window == ALL_FAR
      && !l.sense.deadlock && l.sense.deadlockClear == 0 && !l.sense.maintenanceRequested
      && l.sense.lastDetect == 0 && l.sense.sensorTimer == 0 && !l.sense.cooling && l.sense.blindStart == 0
  {
    hide Inv, Sampled, Median, Pushed;
    BootKeeps(Nvs(false, false), clock, config, Calm().reading);
    HealthySample(INITIAL, Wrap(clock), Fin(11.0));
    StillFar();
  }

  lemma FineTickSense(l: Lid, env: Env)
    requires Fine(l) && Benign(env) && Tickable(l.state)
    ensures
      var s := Sensed(l, env).sense;
      s == l.sense.(sensorTimer := s.sensorTimer, window := s.window, distance := s.distance, cooling := s.cooling)
  {
    hide Fine, Inv, Sensed, RunState, Perform;
    FineTick(l, env);
  }

  lemma Elapsed(at: nat, ms: nat)
    requires ms < WRAP
    ensures Since(Wrap(at + ms), Wrap(at)) == ms
  {
    SinceIsElapsed(at + ms, at);
  }

  lemma SensedDrive(l: Lid, env: Env)
    ensures Sensed(l, env).drive == l.drive
  {
    hide Bus.Do, NextPolicy, TakeSnapshot, Median, Pushed;
  }

  lemma RestOver(l: Lid, env: Env)
    ensures Sensed(l, env).sense.cooling ==> l.sense.cooling && Since(l.Now(), l.sense.cooldownTimer) < l.config.cooldownTime
  {
    hide Sensed, Median, Pushed, PeriodicRead, TakeSnapshot;
    ObservedSight(l, env);
  }

  // ---- Counting readings ----

  function One(b: bool): nat {
    if b then 1 else 0
  }

  lemma CountFive(a: real, b: real, c: real, d: real, e: real, t: real)
    ensures Nearer([a, b, c, d, e], t) == One(a < t) + One(b < t) + One(c < t) + One(d < t) + One(e < t)
    ensures Within([a, b, c, d, e], t) == One(a <= t) + One(b <= t) + One(c <= t) + One(d <= t) + One(e <= t)
  {
    hide Nearer, Within;
    assert [] + [a] == [a] && [a] + [b] == [a, b] && [a, b] + [c] == [a, b, c];
    assert [a, b, c] + [d] == [a, b, c, d] && [a, b, c, d] + [e] == [a, b, c, d, e];
    CountOne([], a, t);
    CountOne([a], b, t);
    CountOne([a, b], c, t);
    CountOne([a, b, c], d, t);
    CountOne([a, b, c, d], e, t);
    CountNone(t);
  }

  lemma CountNone(t: real)
    ensures Nearer([], t) == 0 && Within([], t) == 0
  {
  }

  lemma CountOne(s: seq<real>, v: real, t: real)
    ensures Nearer(s + [v], t) == Nearer(s, t) + One(v < t)
    ensures Within(s + [v], t) == Within(s, t) + One(v <= t)
  {
    assert (s + [v])[..|s|] == s;
  }
}
