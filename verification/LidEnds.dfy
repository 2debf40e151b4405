/** How an ordinary stroke goes on and ends, told from the readings over a run. */
module LidEnds {
  import opened Numeric
  import opened BatteryPolicy
  import opened BatteryLatch
  import opened DistanceFilter
  import opened Gpio
  import opened Lid
  import opened LidInvariant
  import opened LidLifecycles
  import opened LidDirections
  import opened LidReactions
  import opened LidSense
  import opened LidRecord
  import opened LidAdmission
  import opened LidCharging
  import opened LidTimes
  import opened LidSight

  /** The controller with the time it came into its present state, and for every look at a
      stroke later than half a second after that, whether there was overcurrent. */
  datatype Stroke = Stroke(timed: Timed, looks: seq<bool>)

  /** A current above the configured limit in magnitude. Nothing is above NaN or infinity. */
  predicate Exceeds(current: Float, limit: Float) {
    match (current, limit)
    case (NaN, _) => false
    case (_, NaN) => false
    case (_, PosInf) => false
    case (_, NegInf) => true
    case (Fin(c), Fin(m)) => c > m || c < -m
    case (_, Fin(_)) => true
  }

  lemma StallIsExcess(l: Lid)
    ensures Stalled(l) <==> Exceeds(l.motorCurrent, l.config.currentStallLimit)
  {
  }

  predicate InStroke(s: FsmState) {
    s == Opening || s == Closing
  }

  /** A tick that looks at a stroke. */
  predicate LooksAt(l: Lid, op: Op) {
    op.Tick? && InStroke(l.state) && !ServicePower(l, op.env).done
  }

  /** Overcurrent by the latest reading of this tick. */
  predicate OverLimit(l: Lid, env: Env) {
    Exceeds(SeenIn(PeriodicRead(l, env.reading).bus.log).current, l.config.currentStallLimit)
  }

  function Proceed(s: Stroke, op: Op): Stroke {
    var l := s.timed.lid;
    Stroke(
      Follow(s.timed, op),
      if Enters(l, op) then []
      else if !LooksAt(l, op) then s.looks
      else if Counted(l.clock - s.timed.entered) > 500 then s.looks + [OverLimit(l, op.env)]
      else [])
  }

  function ProceedAll(s: Stroke, ops: seq<Op>): Stroke
    decreases |ops|
  {
    if ops == [] then s else ProceedAll(Proceed(s, ops[0]), ops[1..])
  }

  function AtRest(l: Lid): Stroke {
    Stroke(JustBooted(l), [])
  }

  /** The stall counts are streaks of looks. */
  predicate Counts(l: Lid, looks: seq<bool>) {
    && (l.state == Opening ==> l.drive.openStalls == Streak(looks) < 3)
    && (l.state == Closing ==> l.drive.closeStalls == Streak(looks) < 3)
  }

  predicate Proceeding(s: Stroke) {
    Timely(s.timed) && Remembered(s.timed.lid) && Counts(s.timed.lid, s.looks)
  }

  // ---- One look ----

  lemma LookFacts(l: Lid, env: Env)
    requires Good(l)
    ensures
      var r, o := PeriodicRead(l, env.reading), Sensed(l, env);
      && Remembered(r) && r.motorCurrent == SeenIn(r.bus.log).current && r.policy.latch.held == Held(BatteryOf(r))
      && o.motorCurrent == r.motorCurrent && o.policy == r.policy && o.config == l.config && o.clock == l.clock
      && o.stateTimer == l.stateTimer && o.state == l.state
  {
    hide Inv, PeriodicRead, SeenIn, Held, TakeSnapshot, Median, Pushed;
    ReadCharging(l, env.reading);
    SensedSame(l, env);
    HeldIsReplay(PeriodicRead(l, env.reading));
  }

  /** Someone is in the way of a close, by three of the last five readings. */
  predicate InTheWay(s: Sense, threshold: real) {
    !s.calibration && Someone(s, threshold)
  }

  lemma PersonIsSeen(l: Lid)
    requires Filtered(l.sense)
    ensures PersonInTheWay(l) <==> InTheWay(l.sense, l.config.distThreshold)
  {
    hide Nearer, Within, Filtered;
    SightIsMajority(l.sense, l.config.distThreshold);
  }

  /** Three looks in a row, this one the last, told of overcurrent. */
  predicate ThirdInARow(s: Stroke, env: Env) {
    Counted(s.timed.lid.clock - s.timed.entered) > 500 && OverLimit(s.timed.lid, env) && Streak(s.looks) >= 2
  }

  /** What a stroke comes to at this tick. */
  function Outcome(s: Stroke, env: Env): FsmState {
    var l := s.timed.lid;
    var over := Counted(l.clock - s.timed.entered) >= l.config.actuatorTime;
    if Held(BatteryOf(PeriodicRead(l, env.reading))) then BatteryLowShutdown
    else if ThirdInARow(s, env) then if l.state == Opening then Hold else EmergencyStop
    else if l.state == Closing && InTheWay(Sensed(l, env).sense, l.config.distThreshold) then OpenStart
    else if !over then l.state
    else if l.state == Closing then Idle
    else if l.sense.maintenanceRequested then Maintenance
    else Hold
  }

  lemma StrokeLook(s: Stroke, env: Env)
    requires Proceeding(s) && InStroke(s.timed.lid.state)
    ensures
      var l, l' := s.timed.lid, Update(s.timed.lid, env);
      && l'.state == Outcome(s, env)
      && (l'.state == l.state ==> l'.bus.pins.mainOn == l.bus.pins.mainOn)
      && (ThirdInARow(s, env) && !Held(BatteryOf(PeriodicRead(l, env.reading))) ==> AllInput(l'.bus.pins))
      && (l'.state == l.state ==>
            Counts(l', if Counted(l.clock - s.timed.entered) > 500 then s.looks + [OverLimit(l, env)] else []))
  {
    hide Inv, Agrees, Update, PeriodicRead, Sensed, Held, Stalled, Exceeds, PersonInTheWay, InTheWay, Streak, Filtered, Locked,
         BatteryOf, SeenIn;
    var l := s.timed.lid;
    LookFacts(l, env);
    SensedSense(l, env);
    StallIsExcess(Sensed(l, env));
    SinceIsElapsed(l.clock, s.timed.entered);
    StreakGrows(s.looks, OverLimit(l, env));
    StreakOfNone();
    if l.state == Opening {
      OpeningGoesOn(l, env);
    } else {
      ClosingGoesOn(l, env);
      PersonIsSeen(Sensed(l, env));
    }
  }

  lemma StreakOfNone()
    ensures Streak([]) == 0
  {
  }

  lemma SensedSense(l: Lid, env: Env)
    requires Filtered(l.sense)
    ensures Filtered(Sensed(l, env).sense)
    ensures Sensed(l, env).sense.maintenanceRequested == l.sense.maintenanceRequested
  {
    hide PeriodicRead, Filtered;
    PeriodicSense(l, env.reading);
    ObservedSense(PeriodicRead(l, env.reading), env.distance);
  }

  // ---- Over runs ----

  /** The counts start at zero with a stroke ... */
  lemma StrokeStarts(l: Lid, op: Op)
    requires Inv(l) && Enters(l, op) && InStroke(Perform(l, op).state)
    ensures Perform(l, op).drive.openStalls == 0 && Perform(l, op).drive.closeStalls == 0
  {
    hide Inv, Update, ServicePower, RequestChargingClose, TakeSnapshot, CanStartOta, ForceOff, Rearmed, TransitionTo;
    forall m: Lid, next
      ensures TransitionTo(m, next).state == next
      ensures TransitionTo(m, next).drive.openStalls == 0 && TransitionTo(m, next).drive.closeStalls == 0
    {
      TransitionMoved(m, next);
    }
    match op
    case Tick(env) => TickStarts(l, env);
    case OtaPower(env) => PowerStarts(l, env);
    case CloseForCharging(ttl, env) => RequestFrame(l, ttl, env);
    case _ =>
  }

  lemma TransitionMoved(l: Lid, next: FsmState)
    ensures TransitionTo(l, next) == Moved(l, next).(bus := TransitionTo(l, next).bus)
  {
  }

  lemma PowerStarts(l: Lid, env: Env)
    requires Inv(l) && ServicePower(l, env).lid.state != l.state
    ensures !InStroke(ServicePower(l, env).lid.state)
  {
    hide Inv, ServicePower;
    ServiceDated(l, env);
  }

  lemma TickStarts(l: Lid, env: Env)
    requires Inv(l) && Update(l, env).state != l.state && InStroke(Update(l, env).state)
    ensures Update(l, env).drive.openStalls == 0 && Update(l, env).drive.closeStalls == 0
  {
    hide Inv, ServicePower, SetRelays, TransitionTo, Sensed, TickStartup, TickIdle, TickHold, TickMaintenance, TickOpening,
         TickClosing, TickEmergency, ForceOff;
    TickFollowsTable(l, env);
    if Senses(l, Tick(env)) {
      UpdateSenses(l, env);
      SensedSame(l, env);
      forall m: Lid, next ensures TransitionTo(m, next) == Moved(m, next).(bus := TransitionTo(m, next).bus) {
        TransitionMoved(m, next);
      }
    } else {
      NotSensed(l, env);
      PowerStarts(l, env);
    }
  }

  /** ... and nothing but a look at the stroke touches them while it lasts. */
  lemma OtherKeepsStalls(l: Lid, op: Op)
    requires Inv(l) && InStroke(l.state) && !LooksAt(l, op) && !Enters(l, op)
    ensures
      var d := Perform(l, op).drive;
      d.openStalls == l.drive.openStalls && d.closeStalls == l.drive.closeStalls
  {
    hide Inv, Update, ServicePower, RequestChargingClose, TakeSnapshot, ForceOff, TransitionTo;
    InvCharge(l);
    forall m: Lid, next ensures TransitionTo(m, next).state == next { TransitionMoved(m, next); }
    match op
    case Tick(env) =>
      NotSensed(l, env);
      PowerKeepsStalls(l, env);
    case OtaPower(env) => PowerKeepsStalls(l, env);
    case CloseForCharging(ttl, env) => RefusedInStroke(l, op);
    case BeginUpdate(_, _) => RefusedInStroke(l, op);
    case _ =>
  }

  lemma RefusedInStroke(l: Lid, op: Op)
    requires InStroke(l.state) && (op.BeginUpdate? || op.CloseForCharging?)
    ensures Perform(l, op) == l
  {
    hide TakeSnapshot, BeginOta, ReadSensors, SetRelays;
  }

  lemma PowerKeepsStalls(l: Lid, env: Env)
    requires Inv(l) && InStroke(l.state) && ServicePower(l, env).lid.state == l.state
    ensures ServicePower(l, env).lid.drive == l.drive
  {
    hide Inv, PeriodicRead, SuperviseCharge, EnterProtection, LeaveProtection, ForceOff, TakeSnapshot, Protect;
    InvCharge(l);
    TickPolicy(l, env);
    var r := PeriodicRead(l, env.reading);
    EnterTimes(r, env);
    ProtectTimes(EnterProtection(r, env), r.Power().valid);
  }

  lemma ProceedKeeps(s: Stroke, op: Op)
    requires Proceeding(s)
    ensures Proceeding(Proceed(s, op))
  {
    hide Timely, Remembered, Follow, Perform, Counts;
    assert Inv(s.timed.lid) by { TimelyIsInv(s.timed); }
    FollowKeeps(s.timed, op);
    FollowPerforms(s.timed, op);
    PerformRecorded(s.timed.lid, op);
    CountsKept(s, op);
  }

  lemma TimelyIsInv(t: Timed)
    requires Timely(t)
    ensures Inv(t.lid)
  {
  }

  lemma FollowPerforms(t: Timed, op: Op)
    ensures Follow(t, op).lid == Perform(t.lid, op)
  {
    hide Perform;
  }

  lemma CountsKept(s: Stroke, op: Op)
    requires Proceeding(s)
    ensures Counts(Perform(s.timed.lid, op), Proceed(s, op).looks)
  {
    hide Proceeding, Perform, Counts, Follow, LooksAt, Streak;
    var l := s.timed.lid;
    assert Inv(l) by { ProceedingIsInv(s); }
    LooksOf(s, op);
    if !InStroke(Perform(l, op).state) {
      NothingToCount(Perform(l, op), Proceed(s, op).looks);
    } else if Enters(l, op) {
      StrokeStarts(l, op);
      StartCounts(Perform(l, op));
    } else if LooksAt(l, op) {
      LookCounts(s, op);
    } else {
      OtherCounts(s, op);
    }
  }

  lemma ProceedingIsInv(s: Stroke)
    requires Proceeding(s)
    ensures Inv(s.timed.lid)
  {
  }

  lemma LooksOf(s: Stroke, op: Op)
    ensures
      var l := s.timed.lid;
      Proceed(s, op).looks ==
      if Enters(l, op) then []
      else if !LooksAt(l, op) then s.looks
      else if Counted(l.clock - s.timed.entered) > 500 then s.looks + [OverLimit(l, op.env)]
      else []
  {
    hide Perform, ServicePower, Follow, OverLimit;
  }

  lemma NothingToCount(l: Lid, looks: seq<bool>)
    requires !InStroke(l.state)
    ensures Counts(l, looks)
  {
  }

  lemma StartCounts(l: Lid)
    requires l.drive.openStalls == 0 && l.drive.closeStalls == 0
    ensures Counts(l, [])
  {
  }

  lemma LookCounts(s: Stroke, op: Op)
    requires Proceeding(s) && LooksAt(s.timed.lid, op) && !Enters(s.timed.lid, op)
    ensures
      var l := s.timed.lid;
      Counts(Perform(l, op), if Counted(l.clock - s.timed.entered) > 500 then s.looks + [OverLimit(l, op.env)] else [])
  {
    hide Proceeding, Update, Counts, ServicePower, OverLimit;
    StrokeLook(s, op.env);
  }

  lemma OtherCounts(s: Stroke, op: Op)
    requires Proceeding(s) && InStroke(Perform(s.timed.lid, op).state)
    requires !LooksAt(s.timed.lid, op) && !Enters(s.timed.lid, op)
    ensures Counts(Perform(s.timed.lid, op), s.looks)
  {
    hide Timely, Remembered, Perform, LooksAt, Streak;
    TimelyIsInv(s.timed);
    OtherKeepsStalls(s.timed.lid, op);
  }

  lemma {:induction false} RunProceeds(s: Stroke, ops: seq<Op>)
    requires Proceeding(s)
    ensures Proceeding(ProceedAll(s, ops)) && ProceedAll(s, ops).timed.lid == RunOps(s.timed.lid, ops)
    decreases |ops|
  {
    hide Proceeding, Perform, Follow, Proceed;
    if ops != [] {
      ProceedKeeps(s, ops[0]);
      ProceedIsPerform(s, ops[0]);
      RunProceeds(Proceed(s, ops[0]), ops[1..]);
    }
  }

  lemma ProceedIsPerform(s: Stroke, op: Op)
    ensures Proceed(s, op).timed.lid == Perform(s.timed.lid, op)
  {
    hide Perform;
    FollowPerforms(s.timed, op);
  }

  /** In any run a tick of an opening or closing stroke leads exactly where the readings say:
      into protection if the latch is held by then; to a stop if this and the two looks before
      it, all later than half a second, told of overcurrent; from a close to another opening
      if someone is in the way; to its end after the actuator time counted modulo 2^32; and
      otherwise it goes on with main as it was. */
  lemma StrokeEndsExactly(nvs: Nvs, clock: nat, config: Config, first: Reading, ops: seq<Op>, env: Env)
    requires InStroke(RunOps(Boot(nvs, clock, config, first), ops).state)
    ensures
      var s := ProceedAll(AtRest(Boot(nvs, clock, config, first)), ops);
      var l, l' := s.timed.lid, Update(s.timed.lid, env);
      && l == RunOps(Boot(nvs, clock, config, first), ops) && l'.state == Outcome(s, env)
      && (l'.state == l.state ==> l'.bus.pins.mainOn == l.bus.pins.mainOn)
      && ((l'.state == Hold && ThirdInARow(s, env)) || l'.state == EmergencyStop ==> AllInput(l'.bus.pins))
      && (ThirdInARow(s, env) ==> |s.looks| >= 2 && s.looks[|s.looks| - 1] && s.looks[|s.looks| - 2])
  {
    hide Boot, RunOps, ProceedAll, Update, Timely, Remembered, Counts, PeriodicRead, Sensed, Held, OverLimit, Streak, InTheWay;
    BootProceeds(nvs, clock, config, first);
    RunProceeds(AtRest(Boot(nvs, clock, config, first)), ops);
    var s := ProceedAll(AtRest(Boot(nvs, clock, config, first)), ops);
    StrokeLook(s, env);
    StreakOfTwo(s.looks);
  }

  lemma BootProceeds(nvs: Nvs, clock: nat, config: Config, first: Reading)
    ensures Proceeding(AtRest(Boot(nvs, clock, config, first)))
  {
    hide Inv, Remembered, Boot, Timely;
    TimelyFromBoot(nvs, clock, config, first, []);
    BootRecorded(nvs, clock, config, first);
    BootStill(nvs, clock, config, first);
  }

  lemma BootStill(nvs: Nvs, clock: nat, config: Config, first: Reading)
    ensures !InStroke(Boot(nvs, clock, config, first).state)
  {
    hide Bus.Do, NextPolicy;
  }
}
