/** The lid controller as a value, and each of its operations as a function from
    the state before and the inputs of that call to the state after. */
module Lid {
  import opened Numeric
  import opened BatteryPolicy
  import opened DistanceFilter
  import opened Gpio

  datatype FsmState =
    | Idle | OpenStart | Opening | Hold | CloseStart | Closing | EmergencyStop
    | BatteryLowShutdown | StartupOpen | OtaUpdating | Maintenance

  datatype Config = Config(
    distThreshold: real, debounceDelay: u32, actuatorTime: u32, waitTime: u32, cooldownTime: u32,
    voltageShutdownLimit: Float, currentStallLimit: Float, emergencyRecoveryTime: u32, maxHoldTime: u32)

  datatype CloseResult =
    NoClose | Running | StrokeFinished | LowVoltage | BadSensor | Overcurrent | Expired | Cancelled

  /** The one charging close a boot allows. */
  datatype Charge = Charge(
    active: bool, used: bool, result: CloseResult, at: u32, requestAt: u32, ttl: u32, stalls: nat)

  datatype Reservation = Reservation(recovery: bool, maintenance: bool, used: bool, at: u32)

  /** Relay bookkeeping. */
  datatype Drive = Drive(
    isolated: bool, lastOpen: bool, lastClose: bool, lowBatteryOpening: bool,
    openStalls: nat, closeStalls: nat)

  /** Distance sensing and the timers that only steer the state machine. A zero
      start time means the timer is not running. */
  datatype Sense = Sense(
    distance: real, sensorTimer: u32, lastDetect: u32, cooling: bool, cooldownTimer: u32,
    blindStart: u32, holdStart: u32, deadlock: bool, deadlockClear: u32,
    maintenanceRequested: bool, calibration: bool, window: Window)

  datatype Lid = Lid(
    clock: nat, bus: Bus, policy: Policy, config: Config, state: FsmState, stateTimer: u32,
    lastPowerReading: u32, motorCurrent: Float, lastVerified: Float,
    drive: Drive, charge: Charge, ota: Reservation, sense: Sense) {

    function Now(): u32 {
      Wrap(clock)
    }

    function Power(): Snapshot {
      TakeSnapshot(policy, Now())
    }

    predicate InMotion() {
      state == OpenStart || state == Opening || state == CloseStart || state == Closing
    }

    predicate MotorRunning() {
      charge.active || InMotion() ||
      (state == BatteryLowShutdown && drive.lowBatteryOpening && Since(Now(), stateTimer) < config.actuatorTime)
    }
  }

  /** What one call reads from the outside: the periodic power reading, a second
      reading if the call takes one, the raw distance, and how much longer than
      asked each of its two contact delays lasts. */
  datatype Env = Env(reading: Reading, reread: Reading, distance: real, slackA: nat, slackB: nat)

  function Emit(l: Lid, e: Event): Lid {
    l.(bus := l.bus.Do(l.clock, e))
  }

  // ---- Relays and states ----

  function ForceOff(l: Lid): Lid {
    Emit(Emit(Emit(l, MainOff), DirMode(DirA, Input)), DirMode(DirB, Input))
    .(drive := l.drive.(isolated := true))
  }

  /** The state callback: everything but an OTA entry is recorded. */
  function Recorded(l: Lid, next: FsmState): Lid {
    if next == OtaUpdating then l
    else
      var held := Emit(l, SaveHold(l.policy.latch.held));
      if next == Hold || next == Opening || next == BatteryLowShutdown || next == StartupOpen
      then Emit(held, SaveLid(true))
      else if next == Idle || next == Closing then Emit(held, SaveLid(false))
      else held
  }

  function Moved(l: Lid, next: FsmState): Lid {
    l.(state := next, stateTimer := l.Now(),
       sense := l.sense.(lastDetect := 0, holdStart := if next == Hold then l.Now() else l.sense.holdStart),
       drive := l.drive.(openStalls := 0, closeStalls := 0))
  }

  function TransitionTo(l: Lid, next: FsmState): Lid {
    Recorded(Moved(l, next), next)
  }

  function NextPolicy(l: Lid, r: Reading): Policy {
    Sampled(l.policy, l.Now(), r.voltage, r.ok && r.current.Fin?, l.config.voltageShutdownLimit)
  }

  function ReadSensors(l: Lid, r: Reading): Lid {
    var read := Emit(l, ReadPower(r, l.config.voltageShutdownLimit));
    var noted := if l.policy.latch.held && !NextPolicy(l, r).latch.held then Emit(read, LatchReleased) else read;
    noted.(lastPowerReading := l.Now(), motorCurrent := r.current,
           lastVerified := if r.ok && r.voltage.Fin? && r.current.Fin? then r.voltage else l.lastVerified,
           policy := NextPolicy(l, r))
  }

  predicate ChargingPowerSafe(l: Lid) {
    var p := l.Power();
    var limit := l.config.voltageShutdownLimit;
    var cutoff := if limit.Fin? then Max(DEFAULT_CUTOFF, limit.r) else DEFAULT_CUTOFF;
    p.valid && l.motorCurrent.Fin? && Fin(cutoff).Lt(p.voltage) && p.voltage.Le(Fin(MAX_VOLTAGE))
  }

  /** The controller has the policy hold the latch. */
  function Rearmed(l: Lid): Lid {
    Emit(l, LatchRestored).(policy := Restored(l.policy))
  }

  function StopCharging(l: Lid, reason: CloseResult): Lid {
    var off := ForceOff(l);
    Rearmed(off.(charge := l.charge.(active := false, result := reason),
                 drive := off.drive.(lowBatteryOpening := false)))
  }

  predicate DirectionChanges(l: Lid, mainOn: bool, open: bool, close: bool) {
    open != l.drive.lastOpen || close != l.drive.lastClose || (mainOn && l.drive.isolated)
  }

  function Wait(l: Lid, slack: nat): Lid {
    l.(clock := l.clock + CONTACT_MS + slack)
  }

  /** Main contacts open, then both directions neutral, then drive restored if wanted. */
  function Neutralise(l: Lid, mainOn: bool, slack: nat): Lid {
    var broken := Wait(Emit(l, MainOff), slack);
    var neutral := Emit(Emit(broken, DirWrite(DirA, true)), DirWrite(DirB, true));
    if mainOn then Emit(Emit(neutral, DirMode(DirA, Output)), DirMode(DirB, Output)) else neutral
  }

  function SwitchDirection(l: Lid, mainOn: bool, open: bool, close: bool, slackA: nat, slackB: nat): Lid {
    var neutral := Neutralise(l, mainOn, slackA);
    var chosen := Emit(Emit(neutral, DirWrite(DirA, !open)), DirWrite(DirB, open || !close));
    Wait(chosen, slackB).(drive := l.drive.(lastOpen := open, lastClose := close))
  }

  function PurposeOf(l: Lid): Purpose {
    if l.charge.active then Purpose.ChargingClose else if l.policy.latch.held then Protective else Motion
  }

  function EnergiseMain(l: Lid): Lid {
    Emit(l, MainOn(PurposeOf(l))).(drive := l.drive.(isolated := false))
  }

  /** A charging close looks at the power again before it energises the main relay. */
  function Rechecked(l: Lid, reread: Reading): Lid {
    var r := ReadSensors(l, reread);
    if !r.Power().valid then StopCharging(r, BadSensor)
    else if !ChargingPowerSafe(r) then StopCharging(r, LowVoltage)
    else if Since(r.Now(), r.charge.requestAt) >= r.charge.ttl then StopCharging(r, Expired)
    else r
  }

  function SetRelays(l: Lid, mainOn: bool, open: bool, close: bool, env: Env): Lid {
    if open && close then TransitionTo(ForceOff(l), EmergencyStop)
    else
      var l := if DirectionChanges(l, mainOn, open, close)
               then SwitchDirection(l, mainOn, open, close, env.slackA, env.slackB) else l;
      if !mainOn then Emit(l, MainOff)
      else if l.charge.active then
        var r := Rechecked(l, env.reread);
        if r.charge.active then EnergiseMain(r) else r
      else EnergiseMain(l)
  }

  function AllOff(l: Lid, env: Env): Lid {
    SetRelays(l, false, false, false, env)
  }

  // ---- Power ----

  function PeriodicRead(l: Lid, r: Reading): Lid {
    var period: u32 := if l.policy.latch.held && !l.MotorRunning() then 1000 else 200;
    if Since(l.Now(), l.lastPowerReading) >= period then ReadSensors(l, r) else l
  }

  function StallLimit(limit: Float): Float {
    if limit.Fin? && limit.r > 0.0 then limit else Fin(3000.0)
  }

  /** One look at a running charging close. */
  function SuperviseCharge(l: Lid): Lid {
    var elapsed := Since(l.Now(), l.charge.at);
    var stroke: u32 := if l.config.actuatorTime < 3800 then l.config.actuatorTime else 3800;
    if !l.Power().valid then StopCharging(l, BadSensor)
    else if !ChargingPowerSafe(l) then StopCharging(l, LowVoltage)
    else if l.state != BatteryLowShutdown then StopCharging(l, Cancelled)
    else if Since(l.Now(), l.charge.requestAt) >= l.charge.ttl then StopCharging(l, Expired)
    else if elapsed >= stroke then StopCharging(l, StrokeFinished)
    else if elapsed > 500 then
      var stalls := if StallLimit(l.config.currentStallLimit).Lt(l.motorCurrent.Abs()) then l.charge.stalls + 1 else 0;
      var l := l.(charge := l.charge.(stalls := stalls));
      if stalls >= 3 then StopCharging(l, Overcurrent) else l
    else l
  }

  /** The first tick that finds the latch held outside protection. */
  function EnterProtection(l: Lid, env: Env): Lid {
    var p := l.Power();
    var critical := p.valid && p.state == Protected;
    var l := TransitionTo(l.(drive := l.drive.(lowBatteryOpening := critical)), BatteryLowShutdown);
    if critical then SetRelays(l, true, true, false, env) else ForceOff(l)
  }

  /** The rest of a tick under protection. `valid` is the reading this tick was decided on. */
  function Protect(l: Lid, valid: bool): Lid {
    var opening := l.drive.lowBatteryOpening && valid;
    var l := l.(drive := l.drive.(lowBatteryOpening := opening));
    if !opening || Since(l.Now(), l.stateTimer) >= l.config.actuatorTime
    then ForceOff(l.(drive := l.drive.(lowBatteryOpening := false)))
    else l
  }

  function LeaveProtection(l: Lid): Lid {
    var off := ForceOff(l);
    var l := off.(drive := off.drive.(lowBatteryOpening := false),
                  sense := l.sense.(maintenanceRequested := false, calibration := false, deadlock := false,
                                    deadlockClear := 0, cooling := false, lastDetect := 0,
                                    distance := 999.0, window := ALL_FAR, blindStart := l.Now()));
    TransitionTo(l, Idle)
  }

  datatype Served = Served(lid: Lid, done: bool)

  function ServicePower(l: Lid, env: Env): Served {
    var moving := l.MotorRunning();
    var l := PeriodicRead(l, env.reading);
    var p := l.Power();
    if l.charge.active then Served(SuperviseCharge(l), true)
    else if p.protectedMode then
      if l.state == OtaUpdating then Served(ForceOff(l), true)
      else Served(Protect(if l.state == BatteryLowShutdown then l else EnterProtection(l, env), p.valid), true)
    else if l.state == BatteryLowShutdown then Served(LeaveProtection(l), true)
    else Served(l, !p.actuationAllowed && !moving)
  }

  // ---- The state machine, one function per state ----

  predicate Sees(l: Lid) {
    0.0 < l.sense.distance < l.config.distThreshold
  }

  predicate Stalled(l: Lid) {
    l.config.currentStallLimit.Lt(l.motorCurrent.Abs())
  }

  function TickStartup(l: Lid, env: Env): Lid {
    var l := AllOff(l, env);
    if Since(l.Now(), l.stateTimer) >= 500
    then TransitionTo(l.(sense := l.sense.(calibration := true)), OpenStart) else l
  }

  function Healed(s: Sense, threshold: real, now: u32): Sense {
    if s.distance > threshold then
      if !s.deadlock then s
      else if s.deadlockClear == 0 then s.(deadlockClear := now)
      else if Since(now, s.deadlockClear) >= 10000 then s.(deadlock := false, deadlockClear := 0)
      else s
    else s.(deadlockClear := 0)
  }

  function TickIdle(l: Lid, env: Env): Lid {
    var l := AllOff(l, env);
    var now := l.Now();
    var s := Healed(l.sense.(calibration := false), l.config.distThreshold, now);
    var blind := s.blindStart != 0 && Since(now, s.blindStart) < 3000;
    var near := 2.0 < s.distance < l.config.distThreshold && !s.cooling && !s.deadlock;
    if blind || !near then l.(sense := s.(lastDetect := 0))
    else if s.lastDetect == 0 then l.(sense := s.(lastDetect := now))
    else if Since(now, s.lastDetect) >= l.config.debounceDelay
    then TransitionTo(l.(sense := s.(lastDetect := 0)), OpenStart)
    else l.(sense := s)
  }

  function TickOpenStart(l: Lid, env: Env): Lid {
    TransitionTo(SetRelays(l, true, true, false, env), Opening)
  }

  function TickOpening(l: Lid, env: Env): Lid {
    var elapsed := Since(l.Now(), l.stateTimer);
    var stalls := if elapsed > 500 && Stalled(l) then l.drive.openStalls + 1 else 0;
    if stalls >= 3 then TransitionTo(ForceOff(l.(drive := l.drive.(openStalls := 0))), Hold)
    else if elapsed >= l.config.actuatorTime then Opened(l.(drive := l.drive.(openStalls := 0)), env)
    else l.(drive := l.drive.(openStalls := stalls))
  }

  /** The end of a full opening: the lid is held open, for maintenance if that was asked. */
  function Opened(l: Lid, env: Env): Lid {
    var l := AllOff(l, env);
    TransitionTo(l, if l.sense.maintenanceRequested then Maintenance else Hold)
  }

  function TickHold(l: Lid, env: Env): Lid {
    var l := AllOff(l, env);
    if Since(l.Now(), l.sense.holdStart) >= l.config.maxHoldTime
    then TransitionTo(l.(sense := l.sense.(deadlock := true)), CloseStart)
    else
      var l := if !l.sense.calibration && Sees(l) then l.(stateTimer := l.Now()) else l;
      if Since(l.Now(), l.stateTimer) >= l.config.waitTime then TransitionTo(l, CloseStart) else l
  }

  function TickCloseStart(l: Lid, env: Env): Lid {
    TransitionTo(SetRelays(l, true, false, true, env), Closing)
  }

  function TickClosing(l: Lid, env: Env): Lid {
    var elapsed := Since(l.Now(), l.stateTimer);
    var stalls := if elapsed > 500 && Stalled(l) then l.drive.closeStalls + 1 else 0;
    if stalls >= 3 then TransitionTo(ForceOff(l.(drive := l.drive.(closeStalls := 0))), EmergencyStop)
    else CloseOn(l.(drive := l.drive.(closeStalls := stalls)), elapsed, env)
  }

  /** A person in the way reopens the lid; otherwise the close runs its time. */
  function CloseOn(l: Lid, elapsed: u32, env: Env): Lid {
    if !l.sense.calibration && Sees(l) && !l.sense.deadlock
    then TransitionTo(AllOff(l.(drive := l.drive.(closeStalls := 0)), env), OpenStart)
    else if elapsed >= l.config.actuatorTime then Closed(l.(drive := l.drive.(closeStalls := 0)), env)
    else l
  }

  /** The end of a full close: standby, with a cooldown and a blind time for the sensor. */
  function Closed(l: Lid, env: Env): Lid {
    var l := AllOff(l, env);
    TransitionTo(l.(sense := l.sense.(cooling := true, cooldownTimer := l.Now(), blindStart := l.Now())), Idle)
  }

  function TickEmergency(l: Lid): Lid {
    var l := ForceOff(l);
    if Since(l.Now(), l.stateTimer) >= l.config.emergencyRecoveryTime then
      var l := l.(drive := l.drive.(isolated := false), sense := l.sense.(cooling := true, cooldownTimer := l.Now()));
      TransitionTo(l, if Sees(l) && !l.sense.deadlock then OpenStart else Idle)
    else l
  }

  function TickMaintenance(l: Lid, env: Env): Lid {
    var l := AllOff(l, env);
    if Since(l.Now(), l.stateTimer) >= 300000
    then TransitionTo(l.(sense := l.sense.(maintenanceRequested := false)), CloseStart) else l
  }

  /** One more reading goes through the filter. */
  function Looked(s: Sense, now: u32, raw: real): Sense {
    s.(sensorTimer := now, window := Pushed(s.window, raw), distance := Median(Pushed(s.window, raw)))
  }

  function Observed(l: Lid, raw: real): Lid {
    var period: u32 := if l.Power().state == Saving then 100 else 50;
    var due := Since(l.Now(), l.sense.sensorTimer) >= period;
    var s := if due then Looked(l.sense, l.Now(), raw) else l.sense;
    l.(sense := if s.cooling && Since(l.Now(), s.cooldownTimer) >= l.config.cooldownTime
                then s.(cooling := false) else s)
  }

  function RunState(l: Lid, env: Env): Lid {
    match l.state
    case StartupOpen => TickStartup(l, env)
    case Idle => TickIdle(l, env)
    case OpenStart => TickOpenStart(l, env)
    case Opening => TickOpening(l, env)
    case Hold => TickHold(l, env)
    case CloseStart => TickCloseStart(l, env)
    case Closing => TickClosing(l, env)
    case EmergencyStop => TickEmergency(l)
    case Maintenance => TickMaintenance(l, env)
    case BatteryLowShutdown =>
      if Since(l.Now(), l.stateTimer) >= l.config.actuatorTime then ForceOff(l) else l
    case OtaUpdating => ForceOff(l)
  }

  function Update(l: Lid, env: Env): Lid {
    var s := ServicePower(l, env);
    if s.done || s.lid.state == OtaUpdating then s.lid
    else RunState(Observed(s.lid, env.distance), env)
  }

  // ---- Commands ----

  predicate Commandable(l: Lid) {
    l.Power().actuationAllowed && l.state != OtaUpdating && l.state != BatteryLowShutdown && l.state != EmergencyStop
  }

  function ForceOpen(l: Lid): Lid {
    if l.state == OpenStart || l.state == Opening || !Commandable(l) then l
    else TransitionTo(l.(sense := l.sense.(deadlock := false, cooling := false, deadlockClear := 0)), OpenStart)
  }

  function ForceClose(l: Lid): Lid {
    if !Commandable(l) || l.state == Closing || l.state == CloseStart then l
    else TransitionTo(l.(sense := l.sense.(maintenanceRequested := false, deadlock := false, cooling := false,
                                           deadlockClear := 0)), CloseStart)
  }

  function ResetEmergency(l: Lid): Lid {
    if l.Power().actuationAllowed && l.state == EmergencyStop
    then l.(state := Idle, sense := l.sense.(cooling := true, cooldownTimer := l.Now()),
            drive := l.drive.(isolated := false))
    else l
  }

  function StartMaintenance(l: Lid): Lid {
    if !Commandable(l) then l
    else
      var l := l.(sense := l.sense.(maintenanceRequested := true));
      if l.state == Hold || l.state == StartupOpen then TransitionTo(l, Maintenance)
      else if l.state != Maintenance && l.state != Opening && l.state != OpenStart then TransitionTo(l, OpenStart)
      else l
  }

  function StopMaintenance(l: Lid): Lid {
    if l.state == OtaUpdating then l
    else
      var l := l.(sense := l.sense.(maintenanceRequested := false));
      if l.state == Maintenance then TransitionTo(l, CloseStart) else l
  }

  // ---- Charging close ----

  predicate ChargeRequestable(l: Lid, ttl: u32) {
    !l.charge.used && 0 < ttl <= 120000 && l.state == BatteryLowShutdown && !l.MotorRunning() &&
    l.config.actuatorTime != 0
  }

  predicate ChargeAdmitted(l: Lid) {
    ChargingPowerSafe(l) && l.policy.latch.held && l.motorCurrent.Abs().Le(Fin(50.0))
  }

  function ChargeBegun(l: Lid, ttl: u32): Lid {
    Rearmed(l.(
      charge := l.charge.(used := true, active := true, result := Running, requestAt := l.Now(), ttl := ttl, stalls := 0),
      drive := l.drive.(lowBatteryOpening := false),
      sense := l.sense.(maintenanceRequested := false, calibration := false)))
  }

  function RequestChargingClose(l: Lid, ttl: u32, env: Env): Lid {
    if !ChargeRequestable(l, ttl) then l
    else
      var l := ReadSensors(l, env.reading);
      if !ChargeAdmitted(l) then l
      else
        var l := SetRelays(ChargeBegun(l, ttl), true, false, true, env);
        if l.charge.active then l.(charge := l.charge.(at := l.Now())) else l
  }

  // ---- OTA reservation ----

  predicate QuietMotor(l: Lid) {
    l.motorCurrent.Fin? && l.motorCurrent.Abs().Le(Fin(50.0))
  }

  /** The last verified voltage does not speak against an update. */
  predicate NoLowEvidence(l: Lid) {
    !l.lastVerified.Fin? || Cutoff(l.config.voltageShutdownLimit) < l.lastVerified.r <= MAX_VOLTAGE
  }

  predicate CanStartOta(l: Lid, recovery: bool, maintenance: bool) {
    var p := l.Power();
    if recovery && maintenance then false
    else if maintenance then
      && !l.ota.used && l.Now() >= 120000 && !l.MotorRunning()
      && (l.state == Idle || (l.state == BatteryLowShutdown && l.drive.isolated))
      && p.forceOtaReady && QuietMotor(l)
    else if !recovery then l.state == Idle && p.otaReady
    else
      && !l.ota.used && l.Now() >= 120000 && (l.state == Idle || l.state == BatteryLowShutdown)
      && !l.MotorRunning() && p.state == SensorFault && p.sampleAgeMs <= 2000 && NoLowEvidence(l)
  }

  function BeginOta(l: Lid, recovery: bool, maintenance: bool): Lid {
    var l := ForceOff(l);
    var special := recovery || maintenance;
    TransitionTo(l.(ota := Reservation(recovery, maintenance, l.ota.used || special,
                                       if special then l.Now() else l.ota.at)), OtaUpdating)
  }

  function TryBeginOta(l: Lid, recovery: bool, maintenance: bool): Lid {
    if CanStartOta(l, recovery, maintenance) then BeginOta(l, recovery, maintenance) else l
  }

  predicate CanContinueOta(l: Lid) {
    var p := l.Power();
    l.state == OtaUpdating && l.drive.isolated && !l.MotorRunning() &&
    if l.ota.maintenance then
      Since(l.Now(), l.ota.at) <= 120000 && p.forceOtaReady && QuietMotor(l)
    else if !l.ota.recovery then p.otaReady
    else Since(l.Now(), l.ota.at) <= 120000 && p.sampleAgeMs <= 2000 && NoLowEvidence(l)
  }

  function FinishOta(l: Lid): Lid {
    var off := ForceOff(l.(ota := l.ota.(recovery := false, maintenance := false)));
    var l := off.(drive := off.drive.(lowBatteryOpening := false));
    var held := l.policy.latch.held;
    var l := TransitionTo(if held then Rearmed(l) else l,
                          if held then BatteryLowShutdown else Idle);
    l.(sense := l.sense.(blindStart := l.Now()))
  }

  // ---- Boot and runs ----

  /** The controller from what the store holds. A recorded open lid or hold starts in
      protection. */
  function PowerOn(nvs: Nvs, clock: nat, config: Config): Lid {
    var protect := nvs.lidOpen || nvs.hold;
    var log := Booted(clock, nvs);
    Lid(clock, Bus(Pinned(log), log),
        if protect then Restored(INITIAL) else INITIAL, config,
        if protect then BatteryLowShutdown else Idle, 0, Wrap(clock), Fin(0.0), NaN,
        Drive(false, false, false, false, 0, 0),
        Charge(false, false, NoClose, 0, 0, 0, 0), Reservation(false, false, false, 0),
        Sense(999.0, 0, 0, false, 0, 0, 0, false, 0, false, false, ALL_FAR))
  }

  /** A boot, with its first reading. */
  function Boot(nvs: Nvs, clock: nat, config: Config, r: Reading): Lid {
    ReadSensors(PowerOn(nvs, clock, config), r)
  }

  datatype Op =
    | Advance(ms: nat)
    | Tick(env: Env)
    | OtaPower(env: Env)
    | CmdOpen | CmdClose | CmdReset | CmdMaintain | CmdEndMaintain
    | Configure(config: Config)
    | CloseForCharging(ttl: u32, env: Env)
    | BeginUpdate(recovery: bool, maintenance: bool)
    | EndUpdate

  function Perform(l: Lid, op: Op): Lid {
    match op
    case Advance(ms) => l.(clock := l.clock + ms)
    case Tick(env) => Update(l, env)
    case OtaPower(env) => ServicePower(l, env).lid
    case CmdOpen => ForceOpen(l)
    case CmdClose => ForceClose(l)
    case CmdReset => ResetEmergency(l)
    case CmdMaintain => StartMaintenance(l)
    case CmdEndMaintain => StopMaintenance(l)
    case Configure(config) => l.(config := config)
    case CloseForCharging(ttl, env) => RequestChargingClose(l, ttl, env)
    case BeginUpdate(recovery, maintenance) => TryBeginOta(l, recovery, maintenance)
    case EndUpdate => FinishOta(l)
  }

  function RunOps(l: Lid, ops: seq<Op>): Lid
    decreases |ops|
  {
    if ops == [] then l else RunOps(Perform(l, ops[0]), ops[1..])
  }
}
