/** What the distance sensor has shown over a run, and when a look is allowed to count:
    the readings behind the filtered distance, the cooldown after a close, and the blind
    time. */
module LidSight {
  import opened Numeric
  import opened BatteryPolicy
  import opened DistanceFilter
  import opened Gpio
  import opened Lid
  import opened LidWiring
  import opened LidInvariant
  import opened LidLog
  import opened LidLifecycles
  import opened LidDirections
  import opened LidReactions
  import opened LidSense
  import opened LidTimes
  import opened LidWatch
  import opened ZeroTimer

  /** The controller with the readings taken since boot or since protection was last left,
      when the latest reading was taken, when the last close or emergency stop ended (unless
      an order or protection came since) and whether the lid still rests from it, and when
      the sensor last went blind. */
  datatype Sighted = Sighted(
    lid: Lid, taken: seq<real>, at: nat, stroke: Option<nat>, rest: Option<nat>, blinded: nat)

  /** A tick that is left to the state machine. */
  predicate Senses(l: Lid, op: Op) {
    op.Tick? && !ServicePower(l, op.env).done && l.state != OtaUpdating
  }

  function SensePeriod(l: Lid, env: Env): u32 {
    if PeriodicRead(l, env.reading).Power().state == Saving then 100 else 50
  }

  predicate Leaves(l: Lid, op: Op) {
    (op.Tick? || op.OtaPower?) && l.state == BatteryLowShutdown && Perform(l, op).state == Idle
  }

  predicate Closes(l: Lid, op: Op) {
    op.Tick? && l.state == Closing && Perform(l, op).state == Idle
  }

  /** An emergency stop that ends by itself or by command. */
  predicate Recovers(l: Lid, op: Op) {
    l.state == EmergencyStop &&
    ((op.Tick? && (Perform(l, op).state == Idle || Perform(l, op).state == OpenStart)) ||
     (op == CmdReset && Perform(l, op).state == Idle))
  }

  predicate Orders(l: Lid, op: Op) {
    (op == CmdOpen || op == CmdClose) && Perform(l, op).state != l.state
  }

  function Glance(s: Sighted, op: Op): Sighted {
    var l := s.lid;
    var l' := Perform(l, op);
    var takes := Senses(l, op) && Counted(l.clock - s.at) >= SensePeriod(l, op.env);
    Sighted(
      l',
      if Leaves(l, op) then [] else if takes then s.taken + [op.env.distance] else s.taken,
      if takes then l.clock else s.at,
      if Leaves(l, op) || Orders(l, op) then None
      else if Closes(l, op) || Recovers(l, op) then Some(l'.clock)
      else s.stroke,
      if Leaves(l, op) || Orders(l, op) then None
      else if Closes(l, op) || Recovers(l, op) then Some(l'.clock)
      else if Senses(l, op) && !Rests(s.rest, l) then None
      else s.rest,
      if Leaves(l, op) || Closes(l, op) || op == EndUpdate then l'.clock else s.blinded)
  }

  /** The rest that began then lasts for the cooldown time. */
  predicate Rests(rest: Option<nat>, l: Lid) {
    rest.Some? && Counted(l.clock - rest.value) < l.config.cooldownTime
  }

  function GlanceAll(s: Sighted, ops: seq<Op>): Sighted
    decreases |ops|
  {
    if ops == [] then s else GlanceAll(Glance(s, ops[0]), ops[1..])
  }

  function Unseen(l: Lid): Sighted {
    Sighted(l, [], 0, None, None, 0)
  }

  // ---- One operation ----

  predicate SameSight(s: Sense, s': Sense) {
    s'.window == s.window && s'.sensorTimer == s.sensorTimer && s'.cooling == s.cooling &&
    s'.cooldownTimer == s.cooldownTimer && s'.blindStart == s.blindStart
  }

  lemma TransitionKeepsSight(s: Sense, l: Lid, next: FsmState)
    requires SameSight(s, l.sense)
    ensures SameSight(s, TransitionTo(l, next).sense)
  {
    hide TransitionTo;
    TransitionSense(l, next);
  }

  lemma HealedSight(s: Sense, threshold: real, now: u32)
    ensures SameSight(s, Healed(s.(calibration := false), threshold, now))
  {
  }

  lemma RestSight(l: Lid, env: Env)
    ensures SameSight(l.sense, TickStartup(l, env).sense) && SameSight(l.sense, TickHold(l, env).sense)
    ensures SameSight(l.sense, TickMaintenance(l, env).sense) && SameSight(l.sense, TickIdle(l, env).sense)
    ensures SameSight(l.sense, TickOpenStart(l, env).sense) && SameSight(l.sense, TickCloseStart(l, env).sense)
    ensures SameSight(l.sense, TickOpening(l, env).sense)
  {
    hide AllOff, SetRelays, TransitionTo, Sees, Stalled, ForceOff, Healed;
    forall m: Lid | m.sense == l.sense
      ensures AllOff(m, env).sense == l.sense && ForceOff(m).sense == l.sense
      ensures SetRelays(m, true, true, false, env).sense == l.sense && SetRelays(m, true, false, true, env).sense == l.sense
    {
      RelaySense(m, env);
    }
    forall m: Lid, next | SameSight(l.sense, m.sense) ensures SameSight(l.sense, TransitionTo(m, next).sense) {
      TransitionKeepsSight(l.sense, m, next);
    }
    HealedSight(l.sense, AllOff(l, env).config.distThreshold, AllOff(l, env).Now());
  }

  /** The same readings, with a rest just begun, and the blind time too if `blind`. */
  predicate RestBegins(s: Sense, s': Sense, now: u32, blind: bool) {
    && s'.window == s.window && s'.sensorTimer == s.sensorTimer && s'.cooling && s'.cooldownTimer == now
    && s'.blindStart == if blind then now else s.blindStart
  }

  /** One tick of the state machine. */
  predicate Turned(l: Lid, l': Lid) {
    if l.state == Closing && l'.state == Idle then RestBegins(l.sense, l'.sense, l'.Now(), true)
    else if l.state == EmergencyStop && l'.state != EmergencyStop then RestBegins(l.sense, l'.sense, l'.Now(), false)
    else SameSight(l.sense, l'.sense)
  }

  lemma ClosingTurns(l: Lid, env: Env)
    requires l.state == Closing
    ensures Turned(l, TickClosing(l, env))
  {
    hide AllOff, TransitionTo, Sees, Stalled, ForceOff;
    forall m: Lid | m.sense == l.sense ensures AllOff(m, env).sense == l.sense && ForceOff(m).sense == l.sense {
      RelaySense(m, env);
    }
    forall m: Lid, next
      ensures TransitionTo(m, next).state == next && TransitionTo(m, next).clock == m.clock
      ensures SameSight(m.sense, TransitionTo(m, next).sense)
    {
      TransitionSense(m, next);
    }
  }

  lemma EmergencyTurns(l: Lid)
    requires l.state == EmergencyStop
    ensures Turned(l, TickEmergency(l))
  {
    hide TransitionTo, Sees, ForceOff;
    OffSense(l);
    OffTimes(l);
    forall m: Lid, next
      ensures TransitionTo(m, next).state == next && TransitionTo(m, next).clock == m.clock
      ensures SameSight(m.sense, TransitionTo(m, next).sense)
    {
      TransitionSense(m, next);
    }
  }

  lemma RunTurns(l: Lid, env: Env)
    ensures Turned(l, RunState(l, env))
  {
    hide ForceOff, TickStartup, TickIdle, TickHold, TickMaintenance, TickOpenStart, TickCloseStart, TickOpening,
         TickClosing, TickEmergency, RestBegins;
    RestSight(l, env);
    OffSense(l);
    if l.state == Closing { ClosingTurns(l, env); }
    if l.state == EmergencyStop { EmergencyTurns(l); }
  }

  /** Leaving protection. */
  predicate Refreshed(s: Sense, s': Sense, now: u32) {
    s'.window == ALL_FAR && s'.sensorTimer == s.sensorTimer && !s'.cooling && s'.blindStart == now
  }

  lemma LeaveRefreshes(l: Lid)
    ensures Refreshed(l.sense, LeaveProtection(l).sense, l.Now()) && LeaveProtection(l).clock == l.clock
  {
    hide ForceOff, TransitionTo;
    OffTimes(l);
    forall m: Lid, next
      ensures TransitionTo(m, next).clock == m.clock && SameSight(m.sense, TransitionTo(m, next).sense)
    {
      TransitionSense(m, next);
    }
  }

  /** The power service: it leaves what was seen alone unless it leaves protection. */
  lemma ServiceSight(l: Lid, env: Env)
    requires Inv(l)
    ensures
      var s := ServicePower(l, env).lid;
      if l.state == BatteryLowShutdown && s.state == Idle then Refreshed(l.sense, s.sense, l.Now()) && s.clock == l.clock
      else SameSight(l.sense, s.sense)
  {
    hide SafeLog, Pinned, PeriodicRead, SuperviseCharge, Protect, EnterProtection, LeaveProtection, ForceOff, TakeSnapshot,
         Wired, Metered, Charging;
    PeriodicReadKeeps(l, env.reading);
    var r := PeriodicRead(l, env.reading);
    SuperviseSense(r);
    RelaySense(r, env);
    OffState(r);
    ProtectSense(r, r.Power().valid);
    EnterSense(r, env);
    ProtectSense(EnterProtection(r, env), r.Power().valid);
    LeaveRefreshes(r);
    LeaveState(r);
  }

  /** What a look takes in and what it finds over. */
  lemma ObservedSight(l: Lid, env: Env)
    ensures
      var r := PeriodicRead(l, env.reading);
      var takes := Since(l.Now(), l.sense.sensorTimer) >= SensePeriod(l, env);
      Sensed(l, env).sense == l.sense.(
        sensorTimer := if takes then l.Now() else l.sense.sensorTimer,
        window := if takes then Pushed(l.sense.window, env.distance) else l.sense.window,
        distance := if takes then Median(Pushed(l.sense.window, env.distance)) else l.sense.distance,
        cooling := l.sense.cooling && Since(l.Now(), l.sense.cooldownTimer) < l.config.cooldownTime)
  {
    hide TakeSnapshot, Median, Pushed, PeriodicRead;
    PeriodicSense(l, env.reading);
    PeriodicTimes(l, env.reading);
  }

  function Middle(l: Lid, op: Op): Sense {
    if Senses(l, op) then Sensed(l, op.env).sense else l.sense
  }

  /** What one operation does to what was seen. */
  predicate OpSight(l: Lid, op: Op) {
    var s, l' := Middle(l, op), Perform(l, op);
    if Leaves(l, op) then Refreshed(s, l'.sense, l'.Now())
    else if Closes(l, op) then RestBegins(s, l'.sense, l'.Now(), true)
    else if Recovers(l, op) then RestBegins(s, l'.sense, l'.Now(), false)
    else if Orders(l, op) then SameSight(s.(cooling := false), l'.sense)
    else if op == EndUpdate then SameSight(s.(blindStart := l'.Now()), l'.sense)
    else SameSight(s, l'.sense)
  }

  lemma TickSight(l: Lid, env: Env)
    requires Inv(l)
    ensures OpSight(l, Tick(env))
  {
    hide Inv, ServicePower, RunState, Update, RestBegins, Refreshed, SameSight, Senses;
    if Senses(l, Tick(env)) {
      SensedTick(l, env);
    } else {
      ServiceSight(l, env);
      NotSensed(l, env);
    }
  }

  lemma SensedTick(l: Lid, env: Env)
    requires Inv(l) && Senses(l, Tick(env))
    ensures Turned(Sensed(l, env), Update(l, env)) && Sensed(l, env).state == l.state != BatteryLowShutdown
    ensures l.state == EmergencyStop ==> Update(l, env).state in {EmergencyStop, OpenStart, Idle}
  {
    hide Inv, ServicePower, RunState, Sensed, RestBegins, Refreshed, SameSight;
    ServedState(l, env);
    SensedSame(l, env);
    UpdateSenses(l, env);
    RunTurns(Sensed(l, env), env);
    ServedWithoutProtection(l, env);
    RunStateFrame(Sensed(l, env), env);
  }

  lemma UpdateSenses(l: Lid, env: Env)
    requires Inv(l) && Senses(l, Tick(env))
    ensures Update(l, env) == RunState(Sensed(l, env), env)
  {
    hide Inv, ServicePower, RunState;
    ServedWithoutProtection(l, env);
    SensedSame(l, env);
  }

  /** A tick that the power service keeps to itself ends no close and no emergency stop. */
  lemma NotSensed(l: Lid, env: Env)
    requires Inv(l) && !Senses(l, Tick(env))
    ensures Update(l, env) == ServicePower(l, env).lid
    ensures !Closes(l, Tick(env)) && !Recovers(l, Tick(env))
  {
    hide Inv, ServicePower, RunState;
    ServiceDated(l, env);
    ServedState(l, env);
    if l.state != BatteryLowShutdown { ServiceStays(l, env); }
  }

  lemma ServiceStays(l: Lid, env: Env)
    requires Inv(l) && l.state != BatteryLowShutdown
    ensures ServicePower(l, env).lid.state == l.state || ServicePower(l, env).lid.state == BatteryLowShutdown
  {
    hide Inv;
    InvCharge(l);
    ServiceFrame(l, env);
  }

  lemma CommandSight(l: Lid, op: Op)
    requires op.CmdOpen? || op.CmdClose? || op.CmdReset?
    ensures OpSight(l, op)
  {
    hide TransitionTo, TakeSnapshot;
    forall m: Lid, next ensures
        TransitionTo(m, next).state == next && SameSight(m.sense, TransitionTo(m, next).sense)
    {
      TransitionSense(m, next);
    }
  }

  lemma MaintenanceSight(l: Lid, op: Op)
    requires op.CmdMaintain? || op.CmdEndMaintain?
    ensures OpSight(l, op)
  {
    hide TransitionTo, TakeSnapshot;
    forall m: Lid, next ensures
        TransitionTo(m, next).state == next && SameSight(m.sense, TransitionTo(m, next).sense)
    {
      TransitionSense(m, next);
    }
  }

  lemma ChargeSight(l: Lid, ttl: u32, env: Env)
    requires Inv(l)
    ensures OpSight(l, CloseForCharging(ttl, env))
  {
    hide Inv, Bus.Do, NextPolicy, SetRelays, ChargeAdmitted, Restored;
    RelaySense(ChargeBegun(ReadSensors(l, env.reading), ttl), env);
  }

  lemma UpdateSight(l: Lid, recovery: bool, maintenance: bool)
    ensures OpSight(l, BeginUpdate(recovery, maintenance)) && OpSight(l, EndUpdate)
  {
    hide CanStartOta, TransitionTo, ForceOff, Restored;
    forall m: Lid, next
      ensures TransitionTo(m, next).clock == m.clock && SameSight(m.sense, TransitionTo(m, next).sense)
    {
      TransitionSense(m, next);
    }
    forall m: Lid ensures ForceOff(m).sense == m.sense && ForceOff(m).clock == m.clock {
      OffSense(m);
      OffTimes(m);
    }
  }

  lemma PlainSight(l: Lid, op: Op)
    requires op.Advance? || op.Configure?
    ensures OpSight(l, op)
  {
  }

  lemma PowerSight(l: Lid, env: Env)
    requires Inv(l)
    ensures OpSight(l, OtaPower(env))
  {
    hide Inv, ServicePower, SameSight;
    ServiceSight(l, env);
  }

  lemma OpSees(l: Lid, op: Op)
    requires Inv(l)
    ensures OpSight(l, op)
  {
    hide Inv, OpSight;
    match op {
      case Tick(env) => TickSight(l, env);
      case OtaPower(env) => PowerSight(l, env);
      case CloseForCharging(ttl, env) => ChargeSight(l, ttl, env);
      case BeginUpdate(a, b) => UpdateSight(l, a, b);
      case EndUpdate => UpdateSight(l, false, false);
      case Advance(_) => PlainSight(l, op);
      case Configure(_) => PlainSight(l, op);
      case CmdMaintain => MaintenanceSight(l, op);
      case CmdEndMaintain => MaintenanceSight(l, op);
      case _ => CommandSight(l, op);
    }
  }

  // ---- Over runs ----

  /** The sense stands for what was seen and when. */
  predicate Shows(s: Sighted, sense: Sense) {
    && sense.window == PushedAll(ALL_FAR, s.taken) && sense.sensorTimer == Wrap(s.at)
    && (sense.cooling <==> s.rest.Some?) && (s.rest.Some? ==> sense.cooldownTimer == Wrap(s.rest.value))
    && sense.blindStart == Wrap(s.blinded)
  }

  predicate Past(s: Sighted) {
    s.at <= s.lid.clock && s.blinded <= s.lid.clock && (s.rest.Some? ==> s.rest.value <= s.lid.clock)
  }

  predicate Seen(s: Sighted) {
    Inv(s.lid) && Shows(s, s.lid.sense) && Past(s)
  }

  lemma PushedSnoc(w: Window, raws: seq<real>, raw: real)
    ensures PushedAll(w, raws + [raw]) == Pushed(PushedAll(w, raws), raw)
  {
    LastFive(w, raws);
    LastFive(w, raws + [raw]);
    assert w + (raws + [raw]) == (w + raws) + [raw];
  }

  /** The look itself, in terms of real time. */
  lemma LookShows(s: Sighted, env: Env)
    requires Shows(s, s.lid.sense) && Past(s)
    ensures
      var l := s.lid;
      var takes := Counted(l.clock - s.at) >= SensePeriod(l, env);
      Shows(Sighted(l, if takes then s.taken + [env.distance] else s.taken, if takes then l.clock else s.at, s.stroke,
                    if Rests(s.rest, l) then s.rest else None, s.blinded), Sensed(l, env).sense)
  {
    hide Sensed, SensePeriod, PushedAll, Counted, Median, Pushed;
    ObservedSight(s.lid, env);
    Measures(s.lid.clock, s.at);
    if s.rest.Some? { Measures(s.lid.clock, s.rest.value); }
    PushedSnoc(ALL_FAR, s.taken, env.distance);
  }

  lemma GlanceKeeps(s: Sighted, op: Op)
    requires Seen(s)
    ensures Seen(Glance(s, op))
  {
    hide Inv, Perform, SensePeriod, PushedAll, Counted, Sensed, Prefix, ServicePower;
    PerformKeeps(s.lid, op);
    PerformExtends(s.lid, op);
    OpSees(s.lid, op);
    if Senses(s.lid, op) { LookShows(s, op.env); }
    assert PushedAll(ALL_FAR, []) == ALL_FAR by { NoneTaken(); }
  }

  lemma NoneTaken()
    ensures PushedAll(ALL_FAR, []) == ALL_FAR
  {
  }

  lemma {:induction false} RunIsSeen(s: Sighted, ops: seq<Op>)
    requires Seen(s)
    ensures Seen(GlanceAll(s, ops)) && GlanceAll(s, ops).lid == RunOps(s.lid, ops)
    decreases |ops|
  {
    hide Seen, Perform;
    if ops != [] {
      GlanceKeeps(s, ops[0]);
      GlanceIsPerform(s, ops[0]);
      RunIsSeen(Glance(s, ops[0]), ops[1..]);
    }
  }

  lemma GlanceIsPerform(s: Sighted, op: Op)
    ensures Glance(s, op).lid == Perform(s.lid, op)
  {
    hide Perform, ServicePower;
  }

  lemma SeenFromBoot(nvs: Nvs, clock: nat, config: Config, first: Reading, ops: seq<Op>)
    ensures
      var b := Boot(nvs, clock, config, first);
      var s := GlanceAll(Unseen(b), ops);
      Seen(s) && s.lid == RunOps(b, ops) && Filtered(s.lid.sense) && Locked(s.lid.sense)
  {
    hide Boot, RunOps, GlanceAll, Inv, PushedAll, Filtered, Locked;
    var b := Boot(nvs, clock, config, first);
    BootKeeps(nvs, clock, config, first);
    BootSees(nvs, clock, config, first);
    assert PushedAll(ALL_FAR, []) == ALL_FAR by { NoneTaken(); }
    RunIsSeen(Unseen(b), ops);
    TimelyFromBoot(nvs, clock, config, first, ops);
  }

  lemma BootSees(nvs: Nvs, clock: nat, config: Config, first: Reading)
    ensures
      var s := Boot(nvs, clock, config, first).sense;
      s.window == ALL_FAR && s.sensorTimer == 0 && !s.cooling && s.blindStart == 0
  {
    hide Bus.Do, NextPolicy;
  }

  /** The last five of the readings, five far ones before them. */
  function Newest(taken: seq<real>): Window {
    (ALL_FAR + taken)[|taken|..]
  }

  /** The blind time: 3 s, but none if it began at counter value zero. */
  predicate Blind(began: nat, at: nat) {
    Wrap(began) != 0 && began <= at && Counted(at - began) < 3000
  }

  /** The readings a tick that is left to the state machine decides on. */
  function ReadingsAt(s: Sighted, env: Env): seq<real> {
    if Counted(s.lid.clock - s.at) >= SensePeriod(s.lid, env) then s.taken + [env.distance] else s.taken
  }

  lemma JudgedShows(s: Sighted, env: Env)
    requires Seen(s)
    ensures
      var j := Judged(s.lid, env);
      && j.sense.window == Newest(ReadingsAt(s, env)) && (j.sense.cooling <==> Rests(s.rest, s.lid))
      && j.sense.blindStart == Wrap(s.blinded) && j.config == s.lid.config && s.lid.clock <= j.clock
  {
    hide Inv, Sensed, SensePeriod, Counted, PushedAll, AllOff;
    LookShows(s, env);
    var o := Sensed(s.lid, env);
    SensedSame(s.lid, env);
    RelaySense(o, env);
    RelayState(o, env);
    OffLater(o, env);
    LastFive(ALL_FAR, ReadingsAt(s, env));
  }

  lemma DeadlockAgrees(l: Lid, env: Env)
    requires Inv(l) && LooksIdle(l, Tick(env)) && Filtered(l.sense) && Locked(l.sense)
    ensures
      var j := Judged(l, env);
      Healed(j.sense, j.config.distThreshold, j.Now()).deadlock == Update(l, env).sense.deadlock
  {
    hide Inv, ServicePower, Observed, AllOff, TickIdle, Invites, Healed, Median, PeriodicRead;
    ServedWithoutProtection(l, env);
    PeriodicSense(l, env.reading);
    var o := Observed(PeriodicRead(l, env.reading), env.distance);
    ObservedSense(PeriodicRead(l, env.reading), env.distance);
    RelaySense(o, env);
    RelayState(o, env);
    IdleLook(o, env);
  }

  /** In any run, what an idle look counts as. It invites exactly when three of the last
      five readings were below the threshold, fewer than three at or below 2 cm, the rest
      after the last stroke and the blind time are over, and no deadlock is left. It finds
      the path clear exactly when fewer than three were within the threshold. */
  lemma LooksExactly(nvs: Nvs, clock: nat, config: Config, first: Reading, ops: seq<Op>, env: Env)
    requires LooksIdle(RunOps(Boot(nvs, clock, config, first), ops), Tick(env))
    ensures
      var s := GlanceAll(Unseen(Boot(nvs, clock, config, first)), ops);
      var five, threshold := Newest(ReadingsAt(s, env)), s.lid.config.distThreshold;
      var near, far := Approach(s.lid, env), Clearing(s.lid, env);
      && s.lid == RunOps(Boot(nvs, clock, config, first), ops) && s.lid.clock <= near.at == far.at
      && (near.good <==>
            && Nearer(five, threshold) >= 3 && Within(five, 2.0) < 3
            && !Rests(s.rest, s.lid) && !Blind(s.blinded, near.at) && !Update(s.lid, env).sense.deadlock)
      && (far.good <==> Within(five, threshold) < 3)
  {
    hide Boot, RunOps, GlanceAll, Update, LooksIdle, Inv, Newest, ReadingsAt, Rests, Shows, Judged, Nearer, Within,
         Counted, Filtered, Locked;
    SeenFromBoot(nvs, clock, config, first, ops);
    var s := GlanceAll(Unseen(Boot(nvs, clock, config, first)), ops);
    JudgedShows(s, env);
    DeadlockAgrees(s.lid, env);
    var j := Judged(s.lid, env);
    HealedSight(j.sense, j.config.distThreshold, j.Now());
    HealedKeeps(j.sense, j.config.distThreshold, j.Now());
    Measures(j.clock, s.blinded);
  }

  lemma HealedKeeps(s: Sense, threshold: real, now: u32)
    ensures
      var h := Healed(s, threshold, now);
      h == s.(deadlock := h.deadlock, deadlockClear := h.deadlockClear)
  {
  }

  // ---- The cooldown in real time ----

  /** The configured cooldown is at least c all along. */
  predicate CoolsFor(l: Lid, ops: seq<Op>, c: nat)
    decreases |ops|
  {
    l.config.cooldownTime >= c && (ops != [] ==> CoolsFor(Perform(l, ops[0]), ops[1..], c))
  }

  /** The rest is that of the last stroke, and if it is over, c has passed since. */
  predicate Cooled(s: Sighted, c: nat) {
    && (s.rest.Some? ==> s.stroke == s.rest)
    && (s.stroke.Some? ==> s.stroke.value <= s.lid.clock && (s.rest.None? ==> s.lid.clock - s.stroke.value >= c))
  }

  lemma RestIsOver(rest: nat, l: Lid, c: nat)
    requires rest <= l.clock && !Rests(Some(rest), l) && l.config.cooldownTime >= c
    ensures l.clock - rest >= c
  {
    Measures(l.clock, rest);
  }

  lemma GlanceCools(s: Sighted, op: Op, c: nat)
    requires Cooled(s, c) && s.lid.config.cooldownTime >= c
    ensures Cooled(Glance(s, op), c)
  {
    hide Perform, SensePeriod, Senses, Leaves, Orders, Closes, Recovers, Rests, Prefix;
    PerformExtends(s.lid, op);
    if s.rest.Some? && !Rests(s.rest, s.lid) { RestIsOver(s.rest.value, s.lid, c); }
  }

  lemma {:induction false} RunCools(s: Sighted, ops: seq<Op>, c: nat)
    requires Cooled(s, c) && CoolsFor(s.lid, ops, c)
    ensures Cooled(GlanceAll(s, ops), c) && GlanceAll(s, ops).lid.config.cooldownTime >= c
    decreases |ops|
  {
    hide Cooled, Glance, Perform;
    if ops != [] {
      GlanceCools(s, ops[0], c);
      GlanceIsPerform(s, ops[0]);
      RunCools(Glance(s, ops[0]), ops[1..], c);
    }
  }

  /** So the idle lid never opens by itself before the cooldown since its last close or
      emergency stop is over in real time, if the cooldown is never configured shorter, nor
      within 3 s of a close unless that ended at counter value zero. */
  lemma NoEarlyReopening(
      nvs: Nvs, clock: nat, config: Config, first: Reading, ops: seq<Op>, env: Env, c: nat)
    requires LooksIdle(RunOps(Boot(nvs, clock, config, first), ops), Tick(env))
    requires Update(RunOps(Boot(nvs, clock, config, first), ops), env).state == OpenStart
    requires CoolsFor(Boot(nvs, clock, config, first), ops, c)
    ensures
      var s := GlanceAll(Unseen(Boot(nvs, clock, config, first)), ops);
      var at := Approach(s.lid, env).at;
      && (s.stroke.Some? ==> s.lid.clock - s.stroke.value >= c)
      && (Wrap(s.blinded) != 0 ==> at - s.blinded >= 3000)
  {
    hide Boot, RunOps, GlanceAll, Update, LooksIdle, WatchAll, Approach, Lasted, Inv, Shows, Nearer, Within, Rests,
         Newest, ReadingsAt, GoodFrom, InOrder, Mark, Filtered, Locked, Counted, CoolsFor;
    LooksExactly(nvs, clock, config, first, ops, env);
    IdleOpensExactly(nvs, clock, config, first, ops, env);
    SeenFromBoot(nvs, clock, config, first, ops);
    RunCools(Unseen(Boot(nvs, clock, config, first)), ops, c);
    var s := GlanceAll(Unseen(Boot(nvs, clock, config, first)), ops);
    LastedIsGood(WatchAll(Fresh(Boot(nvs, clock, config, first)), ops).approach, Approach(s.lid, env), s.lid.config.debounceDelay);
    assert Wrap(s.blinded) != 0 ==> Approach(s.lid, env).at - s.blinded >= 3000 by {
      Measures(Approach(s.lid, env).at, s.blinded);
    }
    if s.rest.Some? { RestIsOver(s.rest.value, s.lid, c); }
  }

  lemma LastedIsGood(h: seq<Look>, look: Look, ms: u32)
    requires Lasted(h, look, ms)
    ensures look.good
  {
  }

  // ---- What ends a deadlock besides idle looks ----

  /** The deadlock and its timer stay, or both are dropped. */
  predicate Dropped(s: Sense, s': Sense, drops: bool) {
    if drops then !s'.deadlock && s'.deadlockClear == 0 else s'.deadlock && s'.deadlockClear == s.deadlockClear
  }

  /** A tick left to the state machine outside idle keeps a deadlock and its timer, whatever
      the sensor sees. */
  lemma ClearTimerOutlivesIdle(l: Lid, env: Env)
    requires Inv(l) && Senses(l, Tick(env)) && l.state != Idle
    ensures
      var s' := Update(l, env).sense;
      s'.deadlockClear == l.sense.deadlockClear && (l.sense.deadlock ==> s'.deadlock)
  {
    hide Inv, ServicePower, RunState, PeriodicRead, Observed;
    UpdateSenses(l, env);
    SensedSame(l, env);
    PeriodicSense(l, env.reading);
    ObservedSense(PeriodicRead(l, env.reading), env.distance);
    RunSoft(Sensed(l, env), env);
  }

  lemma CommandDrops(l: Lid, op: Op)
    requires l.sense.deadlock && (op.CmdOpen? || op.CmdClose? || op.CmdReset? || op.CmdMaintain? || op.CmdEndMaintain?)
    ensures Dropped(l.sense, Perform(l, op).sense, Orders(l, op))
  {
    hide TransitionTo, TakeSnapshot;
    forall m: Lid, next ensures
        && TransitionTo(m, next).state == next
        && TransitionTo(m, next).sense ==
           m.sense.(lastDetect := 0, holdStart := if next == Hold then m.Now() else m.sense.holdStart)
    {
      TransitionSense(m, next);
    }
  }

  lemma OtherDrops(l: Lid, op: Op)
    requires l.sense.deadlock && (op.CloseForCharging? || op.BeginUpdate? || op.EndUpdate?)
    ensures Dropped(l.sense, Perform(l, op).sense, false)
  {
    hide Bus.Do, NextPolicy, SetRelays, ChargeAdmitted, Restored, CanStartOta, TransitionTo, ForceOff;
    forall m: Lid, next ensures
        TransitionTo(m, next).sense ==
        m.sense.(lastDetect := 0, holdStart := if next == Hold then m.Now() else m.sense.holdStart)
    {
      TransitionSense(m, next);
    }
    forall m: Lid ensures ForceOff(m).sense == m.sense { OffSense(m); }
    if op.CloseForCharging? { RelaySense(ChargeBegun(ReadSensors(l, op.env.reading), op.ttl), op.env); }
  }

  lemma PowerDrops(l: Lid, env: Env)
    requires Inv(l) && l.sense.deadlock
    ensures
      var s := ServicePower(l, env).lid;
      Dropped(l.sense, s.sense, l.state == BatteryLowShutdown && s.state == Idle)
  {
    hide Inv;
    hide ServicePower;
    ServiceSense(l, env);
  }

  /** Besides an idle look, exactly an order to open or close that is obeyed and the end of
      protection drop a deadlock. Everything else keeps it and its timer. */
  lemma DeadlockDropsExactly(l: Lid, op: Op)
    requires Inv(l) && l.sense.deadlock && !LooksIdle(l, op)
    ensures Dropped(l.sense, Perform(l, op).sense, Leaves(l, op) || Orders(l, op))
  {
    hide Inv, Update, ServicePower, RequestChargingClose, TryBeginOta, FinishOta,
         ForceOpen, ForceClose, ResetEmergency, StartMaintenance, StopMaintenance;
    match op {
      case Tick(env) => TickDrops(l, env);
      case OtaPower(env) => PowerDrops(l, env);
      case Advance(_) =>
      case Configure(_) =>
      case CloseForCharging(_, _) => OtherDrops(l, op);
      case BeginUpdate(_, _) => OtherDrops(l, op);
      case EndUpdate => OtherDrops(l, op);
      case _ => CommandDrops(l, op);
    }
  }

  lemma TickDrops(l: Lid, env: Env)
    requires Inv(l) && l.sense.deadlock && !LooksIdle(l, Tick(env))
    ensures Dropped(l.sense, Update(l, env).sense, Leaves(l, Tick(env)))
  {
    hide Inv, Update, ServicePower;
    if Senses(l, Tick(env)) {
      ClearTimerOutlivesIdle(l, env);
      SensedTick(l, env);
    } else {
      NotSensed(l, env);
      PowerDrops(l, env);
    }
  }
}
