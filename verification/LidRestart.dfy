/** What a restart finds: the two stored flags told from the states the lid has been in, and
    the state a boot after a power loss starts in. */
module LidRestart {
  import opened Numeric
  import opened BatteryPolicy
  import opened DistanceFilter
  import opened Gpio
  import opened Lid
  import opened LidWiring
  import opened LidInvariant
  import opened LidLifecycles
  import opened LidDirections
  import opened LidReactions
  import opened LidSense
  import opened LidRecord
  import opened LidAdmission
  import opened LidTimes
  import opened LidSight
  import opened LidFlags

  function Store(l: Lid): Nvs {
    l.bus.pins.nvs
  }

  /** A change of state is on record, anything else leaves the record alone. */
  predicate Records(l: Lid, l': Lid) {
    Store(l') == if l'.state == l.state then Store(l) else RecordedNvs(Store(l), l'.policy.latch.held, l'.state)
  }

  // ---- Parts of a tick ----

  lemma TransitionStores(l: Lid, next: FsmState)
    ensures
      var l' := TransitionTo(l, next);
      && Store(l') == RecordedNvs(Store(l), l.policy.latch.held, next)
      && l'.state == next && l'.policy == l.policy
  {
  }

  lemma SwitchStores(l: Lid, mainOn: bool, open: bool, close: bool, slackA: nat, slackB: nat)
    ensures
      var l' := SwitchDirection(l, mainOn, open, close, slackA, slackB);
      Store(l') == Store(l) && l'.state == l.state && l'.policy == l.policy
  {
    var broken := Wait(Emit(l, MainOff), slackA);
    var neutral := Neutralise(l, mainOn, slackA);
    assert Store(neutral) == Store(l) && neutral.state == l.state && neutral.policy == l.policy;
  }

  lemma ReadStores(l: Lid, r: Reading)
    ensures Store(ReadSensors(l, r)) == Store(l) && ReadSensors(l, r).state == l.state
  {
    hide NextPolicy;
  }

  lemma StopStores(l: Lid, reason: CloseResult)
    ensures Store(StopCharging(l, reason)) == Store(l) && StopCharging(l, reason).state == l.state
  {
    hide Restored;
  }

  lemma RecheckStores(l: Lid, r: Reading)
    ensures Store(Rechecked(l, r)) == Store(l) && Rechecked(l, r).state == l.state
  {
    hide ReadSensors, StopCharging, ChargingPowerSafe, TakeSnapshot;
    ReadStores(l, r);
    forall reason
      ensures Store(StopCharging(ReadSensors(l, r), reason)) == Store(l)
      ensures StopCharging(ReadSensors(l, r), reason).state == l.state
    {
      StopStores(ReadSensors(l, r), reason);
    }
  }

  lemma SetRelaysStores(l: Lid, mainOn: bool, open: bool, env: Env)
    ensures
      var l' := SetRelays(l, mainOn, open, mainOn && !open, env);
      Store(l') == Store(l) && l'.state == l.state && (!l.charge.active || !mainOn ==> l'.policy == l.policy)
  {
    hide SwitchDirection, Rechecked, DirectionChanges, PurposeOf;
    SwitchStores(l, mainOn, open, mainOn && !open, env.slackA, env.slackB);
    SwitchFrame();
    RecheckStores(l, env.reread);
    RecheckStores(SwitchDirection(l, mainOn, open, mainOn && !open, env.slackA, env.slackB), env.reread);
  }

  lemma OffStores()
    ensures forall m: Lid ::
              && Store(ForceOff(m)) == Store(m) && ForceOff(m).state == m.state && ForceOff(m).policy == m.policy
  {
  }

  lemma RelayStores(env: Env)
    ensures forall m: Lid ::
              && Store(AllOff(m, env)) == Store(m) && AllOff(m, env).state == m.state && AllOff(m, env).policy == m.policy
    ensures forall m: Lid ::
              && Store(ForceOff(m)) == Store(m) && ForceOff(m).state == m.state && ForceOff(m).policy == m.policy
  {
    hide SetRelays;
    OffStores();
    forall m: Lid
      ensures Store(AllOff(m, env)) == Store(m) && AllOff(m, env).state == m.state && AllOff(m, env).policy == m.policy
    {
      SetRelaysStores(m, false, false, env);
    }
  }

  /** A step keeps the state and the record, or changes the state and records it. */
  lemma Recording(l: Lid, m: Lid)
    requires Store(m) == Store(l) && m.policy == l.policy
    ensures m.state == l.state ==> Records(l, m)
    ensures forall next | next != l.state :: Records(l, TransitionTo(m, next))
  {
    hide TransitionTo;
    forall next | next != l.state ensures Records(l, TransitionTo(m, next)) { TransitionStores(m, next); }
  }

  lemma RestStores(l: Lid, env: Env)
    ensures l.state == StartupOpen ==> Records(l, TickStartup(l, env))
    ensures l.state == Idle ==> Records(l, TickIdle(l, env))
    ensures l.state == Hold ==> Records(l, TickHold(l, env))
    ensures l.state == Maintenance ==> Records(l, TickMaintenance(l, env))
  {
    hide AllOff, TransitionTo, Healed, Sees, Records;
    RelayStores(env);
    forall m: Lid | Store(m) == Store(l) && m.policy == l.policy
      ensures m.state == l.state ==> Records(l, m)
      ensures forall next | next != l.state :: Records(l, TransitionTo(m, next))
    {
      Recording(l, m);
    }
  }

  lemma StrokeStores(l: Lid, env: Env)
    ensures l.state == Opening ==> Records(l, TickOpening(l, env))
    ensures l.state == Closing ==> Records(l, TickClosing(l, env))
    ensures l.state == EmergencyStop ==> Records(l, TickEmergency(l))
  {
    hide AllOff, ForceOff, TransitionTo, Sees, Stalled, Records;
    RelayStores(env);
    forall m: Lid | Store(m) == Store(l) && m.policy == l.policy
      ensures m.state == l.state ==> Records(l, m)
      ensures forall next | next != l.state :: Records(l, TransitionTo(m, next))
    {
      Recording(l, m);
    }
  }

  lemma StartStores(l: Lid, env: Env)
    requires !l.charge.active
    ensures l.state == OpenStart ==> Records(l, TickOpenStart(l, env))
    ensures l.state == CloseStart ==> Records(l, TickCloseStart(l, env))
  {
    hide SetRelays, TransitionTo, Records;
    SetRelaysStores(l, true, true, env);
    SetRelaysStores(l, true, false, env);
    Recording(l, SetRelays(l, true, true, false, env));
    Recording(l, SetRelays(l, true, false, true, env));
  }

  lemma RunStores(l: Lid, env: Env)
    requires !l.charge.active
    ensures Records(l, RunState(l, env))
  {
    hide ForceOff, TickStartup, TickIdle, TickHold, TickMaintenance, TickOpenStart, TickCloseStart, TickOpening,
         TickClosing, TickEmergency;
    RestStores(l, env);
    StrokeStores(l, env);
    StartStores(l, env);
    RelayStores(env);
  }

  lemma SuperviseStores(l: Lid)
    ensures Store(SuperviseCharge(l)) == Store(l) && SuperviseCharge(l).state == l.state
  {
    hide StopCharging, ChargingPowerSafe, TakeSnapshot, StallLimit, Float.Lt, Float.Abs;
    forall m: Lid, reason ensures Store(StopCharging(m, reason)) == Store(m) && StopCharging(m, reason).state == m.state {
      StopStores(m, reason);
    }
  }

  lemma ProtectStores(l: Lid, valid: bool)
    ensures
      var l' := Protect(l, valid);
      Store(l') == Store(l) && l'.state == l.state && l'.policy == l.policy
  {
  }

  lemma EnterStores(l: Lid, env: Env)
    requires !l.charge.active && l.state != BatteryLowShutdown
    ensures
      var l' := EnterProtection(l, env);
      Records(l, l') && l'.state == BatteryLowShutdown && l'.policy == l.policy
  {
    hide SetRelays, ForceOff, TransitionTo, TakeSnapshot;
    var critical := l.Power().valid && l.Power().state == Protected;
    var m := l.(drive := l.drive.(lowBatteryOpening := critical));
    RelayStores(env);
    TransitionStores(m, BatteryLowShutdown);
    TransitionMovedCharge(m, BatteryLowShutdown);
    SetRelaysStores(TransitionTo(m, BatteryLowShutdown), true, true, env);
  }

  lemma TransitionMovedCharge(l: Lid, next: FsmState)
    ensures TransitionTo(l, next).charge == l.charge
  {
    hide Bus.Do;
  }

  lemma LeaveStores(l: Lid)
    requires l.state == BatteryLowShutdown
    ensures Records(l, LeaveProtection(l)) && LeaveProtection(l).state == Idle
  {
    hide ForceOff, TransitionTo;
    OffStores();
    forall m: Lid, next
      ensures Store(TransitionTo(m, next)) == RecordedNvs(Store(m), m.policy.latch.held, next)
      ensures TransitionTo(m, next).state == next && TransitionTo(m, next).policy == m.policy
    {
      TransitionStores(m, next);
    }
  }

  lemma PeriodicStores(l: Lid, r: Reading)
    ensures Store(PeriodicRead(l, r)) == Store(l)
  {
    hide ReadSensors;
    ReadStores(l, r);
  }

  lemma ServiceStores(l: Lid, env: Env)
    requires Inv(l)
    ensures Records(l, ServicePower(l, env).lid)
  {
    hide SafeLog, Pinned, PeriodicRead, SuperviseCharge, Protect, EnterProtection, LeaveProtection, ForceOff, TakeSnapshot,
         Wired, Metered, Charging, RecordedNvs;
    PeriodicReadKeeps(l, env.reading);
    PeriodicStores(l, env.reading);
    var r := PeriodicRead(l, env.reading);
    SuperviseStores(r);
    RelayStores(env);
    ProtectStores(r, r.Power().valid);
    if r.state == BatteryLowShutdown { LeaveStores(r); } else { InvCharge(l); EnterStores(r, env); }
    ProtectStores(EnterProtection(r, env), r.Power().valid);
  }

  lemma TickStores(l: Lid, env: Env)
    requires Inv(l)
    ensures Records(l, Update(l, env))
  {
    hide Inv, ServicePower, RunState, Update, RecordedNvs;
    if Senses(l, Tick(env)) {
      UpdateSenses(l, env);
      ServedState(l, env);
      SensedSame(l, env);
      InvCharge(l);
      SensedStores(l, env);
      RunStores(Sensed(l, env), env);
    } else {
      ServiceStores(l, env);
      NotSensed(l, env);
    }
  }

  lemma SensedStores(l: Lid, env: Env)
    ensures Store(Sensed(l, env)) == Store(l)
  {
    hide PeriodicRead, Median, Pushed, TakeSnapshot;
    PeriodicStores(l, env.reading);
  }

  // ---- Any operation ----

  /** What one operation records. */
  predicate OpRecords(l: Lid, op: Op) {
    var l' := Perform(l, op);
    if op == CmdReset then Store(l') == Store(l)
    else if op == EndUpdate then Store(l') == RecordedNvs(Store(l), l'.policy.latch.held, l'.state)
    else Records(l, l')
  }

  lemma CommandStores(l: Lid, op: Op)
    requires op.CmdOpen? || op.CmdClose? || op.CmdReset? || op.CmdMaintain? || op.CmdEndMaintain?
    ensures OpRecords(l, op)
  {
    hide TransitionTo, TakeSnapshot, RecordedNvs;
    forall m: Lid, next
      ensures Store(TransitionTo(m, next)) == RecordedNvs(Store(m), m.policy.latch.held, next)
      ensures TransitionTo(m, next).state == next && TransitionTo(m, next).policy == m.policy
    {
      TransitionStores(m, next);
    }
  }

  lemma ChargeStores(l: Lid, ttl: u32, env: Env)
    ensures OpRecords(l, CloseForCharging(ttl, env))
  {
    hide ReadSensors, ChargeBegun, SetRelays, ChargeAdmitted;
    ReadStores(l, env.reading);
    var read := ReadSensors(l, env.reading);
    BegunStores(read, ttl);
    SetRelaysStores(ChargeBegun(read, ttl), true, false, env);
  }

  lemma BegunStores(l: Lid, ttl: u32)
    ensures Store(ChargeBegun(l, ttl)) == Store(l) && ChargeBegun(l, ttl).state == l.state
  {
    hide Restored;
  }

  lemma BeginStores(l: Lid, op: Op)
    requires op.BeginUpdate?
    ensures OpRecords(l, op)
  {
    hide CanStartOta, TransitionTo, ForceOff;
    OffStores();
    forall m: Lid
      ensures Store(TransitionTo(m, OtaUpdating)) == Store(m) && TransitionTo(m, OtaUpdating).state == OtaUpdating
    {
      TransitionStores(m, OtaUpdating);
    }
  }

  lemma EndStores(l: Lid)
    ensures OpRecords(l, EndUpdate)
  {
    hide TransitionTo, ForceOff, Rearmed, RecordedNvs;
    OffStores();
    forall m: Lid, next
      ensures Store(TransitionTo(m, next)) == RecordedNvs(Store(m), m.policy.latch.held, next)
      ensures TransitionTo(m, next).state == next && TransitionTo(m, next).policy == m.policy
    {
      TransitionStores(m, next);
    }
    forall m: Lid ensures Store(Rearmed(m)) == Store(m) && (m.policy.latch.held ==> Rearmed(m).policy.latch.held) {
      RearmStores(m);
    }
  }

  lemma RearmStores(l: Lid)
    ensures Store(Rearmed(l)) == Store(l) && Rearmed(l).policy.latch.held
  {
  }

  lemma OpStores(l: Lid, op: Op)
    requires Inv(l)
    ensures OpRecords(l, op)
  {
    hide Inv, OpRecords;
    match op {
      case Tick(env) => PlainStores(l, op);
      case OtaPower(env) => PlainStores(l, op);
      case Advance(_) => PlainStores(l, op);
      case Configure(_) => PlainStores(l, op);
      case CloseForCharging(ttl, env) => ChargeStores(l, ttl, env);
      case BeginUpdate(_, _) => BeginStores(l, op);
      case EndUpdate => EndStores(l);
      case _ => CommandStores(l, op);
    }
  }

  lemma PlainStores(l: Lid, op: Op)
    requires Inv(l) && (op.Tick? || op.OtaPower? || op.Advance? || op.Configure?)
    ensures OpRecords(l, op)
  {
    hide Inv, Update, ServicePower, RecordedNvs;
    match op
    case Tick(env) => TickStores(l, env);
    case OtaPower(env) => ServiceStores(l, env);
    case _ =>
  }

  // ---- Over runs ----

  /** States on the way to another one. The lid is where it was before. */
  predicate Passing(s: FsmState) {
    s == OpenStart || s == CloseStart || s == OtaUpdating
  }

  /** The controller with the last state that was none of these. */
  datatype Placed = Placed(lid: Lid, place: FsmState)

  function Place(p: Placed, op: Op): Placed {
    var l' := Perform(p.lid, op);
    Placed(l', if Passing(l'.state) then p.place else l'.state)
  }

  function PlaceAll(p: Placed, ops: seq<Op>): Placed
    decreases |ops|
  {
    if ops == [] then p else PlaceAll(Place(p, ops[0]), ops[1..])
  }

  /** The lid is open, opens, or is under protection. */
  predicate MayBeOpen(place: FsmState) {
    place == Opening || place == Hold || place == Maintenance || place == BatteryLowShutdown
  }

  /** What is stored fits the last place. Outside protection the open flag alone says it. */
  predicate OnRecord(state: FsmState, place: FsmState, nvs: Nvs) {
    && !Passing(place) && place != StartupOpen
    && (!Passing(state) ==> place == state)
    && (if place == BatteryLowShutdown then nvs.Durable() && state != OpenStart && state != CloseStart
        else !nvs.hold && (nvs.lidOpen <==> MayBeOpen(place)))
  }

  predicate Stored(p: Placed) {
    Good(p.lid) && Uncalibrated(p.lid) && OnRecord(p.lid.state, p.place, Store(p.lid))
  }

  /** Which states an operation may lead to. */
  function Reachable(s: FsmState, op: Op): set<FsmState> {
    match op
    case Tick(_) => Successors(s) + {BatteryLowShutdown}
    case OtaPower(_) => if s == BatteryLowShutdown then {s, Idle} else {s, BatteryLowShutdown}
    case EndUpdate => {Idle, BatteryLowShutdown}
    case BeginUpdate(_, _) => {s, OtaUpdating}
    case CmdReset => {s, Idle}
    case CmdOpen => {s, OpenStart}
    case CmdClose => {s, CloseStart}
    case CmdMaintain => if s == Hold then {s, Maintenance} else {s, OpenStart}
    case CmdEndMaintain => {s, CloseStart}
    case _ => {s}
  }

  lemma OpReaches(l: Lid, op: Op)
    requires Inv(l) && Uncalibrated(l)
    ensures Perform(l, op).state in Reachable(l.state, op)
    ensures (op.CmdOpen? || op.CmdClose? || op.CmdMaintain?) && Perform(l, op).state != l.state ==>
              TakesOrders(l.state)
    ensures op == CmdEndMaintain && Perform(l, op).state != l.state ==> l.state == Maintenance
    ensures op == CmdReset && Perform(l, op).state != l.state ==> l.state == EmergencyStop
  {
    hide Inv, Update, ServicePower, RequestChargingClose, TransitionTo, TakeSnapshot, CanStartOta, ForceOff, Rearmed;
    forall m: Lid, next ensures TransitionTo(m, next).state == next { TransitionStores(m, next); }
    match op
    case Tick(env) => TickFollowsTable(l, env);
    case OtaPower(env) => PowerReaches(l, env);
    case CloseForCharging(ttl, env) => RequestFrame(l, ttl, env);
    case _ =>
  }

  lemma PowerReaches(l: Lid, env: Env)
    requires Inv(l)
    ensures ServicePower(l, env).lid.state in Reachable(l.state, OtaPower(env))
  {
    hide Inv, ServicePower;
    ServiceDated(l, env);
    if l.state != BatteryLowShutdown { ServiceStays(l, env); }
  }

  lemma HeldConfines(l: Lid)
    requires Inv(l)
    ensures l.policy.latch.held ==> l.state == BatteryLowShutdown || l.state == OtaUpdating
    ensures l.state == BatteryLowShutdown ==> Store(l).Durable()
  {
  }

  /** What keeps the stored flags right, in terms of the states alone. */
  lemma RecordFits(s: FsmState, place: FsmState, nvs: Nvs, op: Op, s': FsmState, nvs': Nvs, held: bool)
    requires OnRecord(s, place, nvs) && s' in Reachable(s, op) && s' != StartupOpen
    requires (op.CmdOpen? || op.CmdClose? || op.CmdMaintain?) && s' != s ==> TakesOrders(s)
    requires op == CmdEndMaintain && s' != s ==> s == Maintenance
    requires op == CmdReset && s' != s ==> s == EmergencyStop
    requires nvs' == if op == CmdReset || (s' == s && op != EndUpdate) then nvs else RecordedNvs(nvs, held, s')
    requires held ==> s' == BatteryLowShutdown || s' == OtaUpdating
    requires s' == BatteryLowShutdown ==> nvs'.Durable()
    ensures OnRecord(s', if Passing(s') then place else s', nvs')
  {
  }

  lemma PlaceKeeps(p: Placed, op: Op)
    requires Stored(p)
    ensures Stored(Place(p, op))
  {
    hide Good, Perform, Marked, OnRecord, Reachable, RecordedNvs;
    var l, l' := p.lid, Perform(p.lid, op);
    GoodKeeps(l, op);
    GoodIsInv(l);
    GoodIsInv(l');
    StaysUncalibrated(l, op);
    OpStores(l, op);
    OpReaches(l, op);
    HeldConfines(l');
    RecordFits(l.state, p.place, Store(l), op, l'.state, Store(l'), l'.policy.latch.held);
  }

  lemma StaysUncalibrated(l: Lid, op: Op)
    requires Good(l) && Uncalibrated(l)
    ensures Uncalibrated(Perform(l, op))
  {
    hide Good, Perform, Asks, GivesUp, Overstays;
    FlagsExactly(l, op);
  }

  lemma GoodIsInv(l: Lid)
    requires Good(l)
    ensures Inv(l)
  {
  }

  lemma {:induction false} RunIsPlaced(p: Placed, ops: seq<Op>)
    requires Stored(p)
    ensures Stored(PlaceAll(p, ops)) && PlaceAll(p, ops).lid == RunOps(p.lid, ops)
    decreases |ops|
  {
    hide Stored, Perform;
    if ops != [] {
      PlaceKeeps(p, ops[0]);
      RunIsPlaced(Place(p, ops[0]), ops[1..]);
    }
  }

  /** A boot starts in protection exactly if one of the flags is stored, with the latch held. */
  lemma BootExactly(nvs: Nvs, clock: nat, config: Config, first: Reading)
    ensures
      var l := Boot(nvs, clock, config, first);
      && l.state == (if nvs.Durable() then BatteryLowShutdown else Idle)
      && l.policy.latch.held == nvs.Durable() && Store(l) == nvs && !l.bus.pins.mainOn
  {
    hide Shown;
  }

  /** After any run, a power loss and a boot, whenever it comes: the lid starts in protection,
      with the latch held and main off, exactly if it was open, opening, in maintenance or
      under protection in the last state it did not just pass through. Otherwise, also from a
      close cut short, it starts idle. */
  lemma RestartsExactly(
    nvs: Nvs, clock: nat, config: Config, first: Reading, ops: seq<Op>, again: nat, config': Config, first': Reading)
    ensures
      var b := Boot(nvs, clock, config, first);
      var p := PlaceAll(Placed(b, b.state), ops);
      var r := Boot(Store(p.lid), again, config', first');
      && p.lid == RunOps(b, ops)
      && r.state == (if MayBeOpen(p.place) then BatteryLowShutdown else Idle)
      && r.policy.latch.held == MayBeOpen(p.place) && !r.bus.pins.mainOn
  {
    hide Boot, Good, RunOps, PlaceAll;
    var b := Boot(nvs, clock, config, first);
    BootExactly(nvs, clock, config, first);
    BootGood(nvs, clock, config, first);
    BootFlags(nvs, clock, config, first);
    RunIsPlaced(Placed(b, b.state), ops);
    BootExactly(Store(PlaceAll(Placed(b, b.state), ops).lid), again, config', first');
  }
}
