/** The lid controller as the firmware runs it: an object that owns the battery
    monitor, drives the hardware, and updates its own fields step by step. Each
    method is proved equal to the function of the same operation on `Lid`. */
module LidController {
  import opened Numeric
  import opened BatteryPolicy
  import opened BatteryHistory
  import opened Battery
  import opened DistanceFilter
  import opened Gpio
  import opened Lid
  import opened LidLog
  import opened LidInvariant
  import opened LidRecord
  import opened LidAdmission
  import opened BatterySnapshot

  /** The board: a clock in real milliseconds, and everything driven so far. */
  class Hardware {
    var clock: nat
    var bus: Bus

    constructor (at: nat, nvs: Nvs)
      ensures clock == at && bus == Bus(Pinned(Booted(at, nvs)), Booted(at, nvs))
    {
      clock := at;
      bus := Bus(Pinned(Booted(at, nvs)), Booted(at, nvs));
    }

    function Millis(): u32
      reads this
    {
      Wrap(clock)
    }

    method Drive(e: Event)
      modifies this`bus
      ensures bus == old(bus).Do(clock, e)
    {
      bus := bus.Do(clock, e);
    }

    /** A delay of at least the contact time. */
    method DelayContact(slack: nat)
      modifies this`clock
      ensures clock == old(clock) + CONTACT_MS + slack
    {
      clock := clock + CONTACT_MS + slack;
    }
  }

  class Controller {
    const hw: Hardware
    const battery: Monitor
    const filter: Filter
    var config: Config
    var state: FsmState
    var stateTimer: u32
    var lastPowerReading: u32
    var motorCurrent: Float
    var lastVerified: Float
    var drive: Drive
    var charge: Charge
    var ota: Reservation
    var sense: Sense

    /** Fit for a step: the battery object has seen what its value says, and the ring holds
        the readings the state stands for. */
    ghost predicate Fit()
      reads this, battery, filter, filter.history
    {
      battery.Valid() && filter.Valid() && sense.window == filter.Contents()
    }

    /** What holds between any two operations, whichever they are. */
    ghost predicate Valid()
      reads this, hw, battery, filter, filter.history
    {
      Fit() && Good(State())
    }

    /** What that means for the board at any such moment. */
    lemma ValidMeans()
      requires Valid()
      ensures
        var p := hw.bus.pins;
        && p == Pinned(hw.bus.log) && SafeLog(hw.bus.log)
        && (p.aHigh || p.bHigh) && p.strokes <= 1 && p.closes <= 1 && Directed(p)
        && (p.mainOn ==>
              State().InMotion() || (state == BatteryLowShutdown && (drive.lowBatteryOpening || charge.active)))
        && (state == OtaUpdating || drive.isolated ==> !p.mainOn && p.aMode == Input && p.bMode == Input)
        && (battery.latch.held ==> state == BatteryLowShutdown || state == OtaUpdating)
    {
      hide Safe, After;
      assert Prefix(hw.bus.log, hw.bus.log);
      SafeMoments(hw.bus.log, hw.bus.log);
    }

    function State(): Lid
      reads this, hw, battery
    {
      Lid(hw.clock, hw.bus, battery.Value(), config, state, stateTimer, lastPowerReading,
          motorCurrent, lastVerified, drive, charge, ota, sense)
    }

    /** Boot: the stored flags choose the initial state. */
    constructor (nvs: Nvs, clock: nat, config: Config, r: Reading)
      ensures Valid() && fresh(hw) && fresh(battery) && fresh(filter) && fresh(filter.history)
      ensures State() == Boot(nvs, clock, config, r)
    {
      hw := new Hardware(clock, nvs);
      battery := new Monitor();
      filter := new Filter();
      this.config := config;
      state := if nvs.lidOpen || nvs.hold then BatteryLowShutdown else Idle;
      stateTimer, lastPowerReading, motorCurrent, lastVerified := 0, Wrap(clock), Fin(0.0), NaN;
      drive := Drive(false, false, false, false, 0, 0);
      charge := Charge(false, false, NoClose, 0, 0, 0, 0);
      ota := Reservation(false, false, false, 0);
      sense := Sense(999.0, 0, 0, false, 0, 0, 0, false, 0, false, false, ALL_FAR);
      new;
      hide ReadSensors, Good, Pinned, Replay, Restored;
      BootGood(nvs, clock, config, r);
      if state == BatteryLowShutdown { battery.RestoreProtection(); }
      assert State() == PowerOn(nvs, clock, config) && Fit();
      hide PowerOn;
      ReadAllSensors(r);
    }

    method ForceAllRelaysOff()
      modifies this`drive, hw`bus
      ensures State() == ForceOff(old(State()))
    {
      hide Bus.Do;
      hw.Drive(MainOff);
      hw.Drive(DirMode(DirA, Input));
      hw.Drive(DirMode(DirB, Input));
      drive := drive.(isolated := true);
    }

    /** Enter a state and let the callback record it. */
    method Transition(next: FsmState)
      requires Fit()
      modifies this`state, this`stateTimer, this`sense, this`drive, hw`bus
      ensures Fit()
      ensures State() == TransitionTo(old(State()), next)
    {
      hide Moved, Recorded;
      Move(next);
      Record(next);
    }

    method Move(next: FsmState)
      requires Fit()
      modifies this`state, this`stateTimer, this`sense, this`drive
      ensures Fit()
      ensures State() == Moved(old(State()), next)
    {
      state, stateTimer := next, hw.Millis();
      sense := sense.(lastDetect := 0);
      if next == Hold { sense := sense.(holdStart := hw.Millis()); }
      drive := drive.(openStalls := 0, closeStalls := 0);
    }

    /** The state callback. */
    method Record(next: FsmState)
      modifies hw`bus
      ensures State() == Recorded(old(State()), next)
    {
      hide Bus.Do;
      if next != OtaUpdating {
        hw.Drive(SaveHold(battery.latch.held));
        if next == Hold || next == Opening || next == BatteryLowShutdown || next == StartupOpen {
          hw.Drive(SaveLid(true));
        } else if next == Idle || next == Closing {
          hw.Drive(SaveLid(false));
        }
      }
    }

    method ReadAllSensors(r: Reading)
      requires Fit()
      modifies this`lastPowerReading, this`motorCurrent, this`lastVerified, hw`bus, battery
      ensures Fit()
      ensures State() == ReadSensors(old(State()), r)
    {
      hide Bus.Do, Sampled, Replay;
      lastPowerReading := hw.Millis();
      hw.Drive(ReadPower(r, config.voltageShutdownLimit));
      if r.ok && r.voltage.Fin? && r.current.Fin? { lastVerified := r.voltage; }
      motorCurrent := r.current;
      var held := battery.latch.held;
      battery.TakeSample(hw.Millis(), r.voltage, r.ok && r.current.Fin?, config.voltageShutdownLimit, hw.clock);
      if held && !battery.latch.held { hw.Drive(LatchReleased); }
    }

    /** The policy holds the latch (again). */
    method HoldLatch()
      requires Fit()
      modifies hw`bus, battery
      ensures Fit()
      ensures State() == Rearmed(old(State()))
    {
      hide Replay;
      battery.RestoreProtection();
      hw.Drive(LatchRestored);
    }

    method StopChargingClose(reason: CloseResult)
      requires Fit()
      modifies this`drive, this`charge, hw`bus, battery
      ensures Fit()
      ensures State() == StopCharging(old(State()), reason)
    {
      hide ForceOff, Replay;
      ForceAllRelaysOff();
      charge := charge.(active := false, result := reason);
      drive := drive.(lowBatteryOpening := false);
      HoldLatch();
    }

    /** Break, neutral, drive, choose: the guarded switch of the direction relays. */
    method SwitchRelays(mainOn: bool, open: bool, close: bool, slackA: nat, slackB: nat)
      modifies this`drive, hw`bus, hw`clock
      ensures State() == SwitchDirection(old(State()), mainOn, open, close, slackA, slackB)
    {
      hide Bus.Do;
      hw.Drive(MainOff);
      hw.DelayContact(slackA);
      hw.Drive(DirWrite(DirA, true));
      hw.Drive(DirWrite(DirB, true));
      if mainOn {
        hw.Drive(DirMode(DirA, Output));
        hw.Drive(DirMode(DirB, Output));
      }
      if open {
        hw.Drive(DirWrite(DirA, false));
        hw.Drive(DirWrite(DirB, true));
      } else if close {
        hw.Drive(DirWrite(DirA, true));
        hw.Drive(DirWrite(DirB, false));
      } else {
        hw.Drive(DirWrite(DirA, true));
        hw.Drive(DirWrite(DirB, true));
      }
      hw.DelayContact(slackB);
      drive := drive.(lastOpen := open, lastClose := close);
    }

    /** A charging close reads the power once more after both contact delays. */
    method RecheckCharge(reread: Reading)
      requires Fit()
      modifies this, hw`bus, battery
      ensures Fit()
      ensures State() == Rechecked(old(State()), reread)
    {
      hide ReadSensors, StopCharging, ChargingPowerSafe, TakeSnapshot, Replay;
      ReadAllSensors(reread);
      if !State().Power().valid {
        StopChargingClose(BadSensor);
      } else if !ChargingPowerSafe(State()) {
        StopChargingClose(LowVoltage);
      } else if Since(hw.Millis(), charge.requestAt) >= charge.ttl {
        StopChargingClose(Expired);
      }
    }

    method SetRelayStates(mainOn: bool, open: bool, close: bool, env: Env)
      requires Fit()
      modifies this, hw, battery
      ensures Fit()
      ensures State() == SetRelays(old(State()), mainOn, open, close, env)
    {
      hide ForceOff, TransitionTo, SwitchDirection, Rechecked, Bus.Do, Replay;
      if open && close {
        ForceAllRelaysOff();
        Transition(EmergencyStop);
        return;
      }
      if open != drive.lastOpen || close != drive.lastClose || (mainOn && drive.isolated) {
        SwitchFrame(State(), mainOn, open, close, env);
        SwitchRelays(mainOn, open, close, env.slackA, env.slackB);
      }
      if mainOn && charge.active {
        RecheckCharge(env.reread);
        if !charge.active { return; }
      }
      if mainOn {
        hw.Drive(MainOn(PurposeOf(State())));
        drive := drive.(isolated := false);
      } else {
        hw.Drive(MainOff);
      }
    }

    // ---- Power ----

    method ReadPeriodically(r: Reading)
      requires Fit()
      modifies this`lastPowerReading, this`motorCurrent, this`lastVerified, hw`bus, battery
      ensures Fit()
      ensures State() == PeriodicRead(old(State()), r)
    {
      hide ReadSensors, Replay, Lid.MotorRunning;
      var period: u32 := if battery.latch.held && !State().MotorRunning() then 1000 else 200;
      if Since(hw.Millis(), lastPowerReading) >= period {
        ReadAllSensors(r);
      }
    }

    method SuperviseChargingClose()
      requires Fit()
      modifies this, hw`bus, battery
      ensures Fit()
      ensures State() == SuperviseCharge(old(State()))
    {
      hide StopCharging, ChargingPowerSafe, TakeSnapshot, Replay, StallLimit, Float.Lt, Float.Abs;
      var elapsed := Since(hw.Millis(), charge.at);
      if !State().Power().valid {
        StopChargingClose(BadSensor);
      } else if !ChargingPowerSafe(State()) {
        StopChargingClose(LowVoltage);
      } else if state != BatteryLowShutdown {
        StopChargingClose(Cancelled);
      } else if Since(hw.Millis(), charge.requestAt) >= charge.ttl {
        StopChargingClose(Expired);
      } else if elapsed >= if config.actuatorTime < 3800 then config.actuatorTime else 3800 {
        StopChargingClose(StrokeFinished);
      } else if elapsed > 500 {
        var over := StallLimit(config.currentStallLimit).Lt(motorCurrent.Abs());
        charge := charge.(stalls := if over then charge.stalls + 1 else 0);
        if charge.stalls >= 3 {
          StopChargingClose(Overcurrent);
        }
      }
    }

    method BeginProtection(env: Env)
      requires Fit()
      modifies this, hw, battery
      ensures Fit()
      ensures State() == EnterProtection(old(State()), env)
    {
      hide SetRelays, ForceOff, TransitionTo, TakeSnapshot, Replay;
      var p := State().Power();
      var critical := p.valid && p.state == Protected;
      drive := drive.(lowBatteryOpening := critical);
      Transition(BatteryLowShutdown);
      if critical {
        SetRelayStates(true, true, false, env);
      } else {
        ForceAllRelaysOff();
      }
    }

    method KeepProtection(valid: bool)
      requires Fit()
      modifies this`drive, hw`bus
      ensures Fit()
      ensures State() == Protect(old(State()), valid)
    {
      hide ForceOff;
      if !valid { drive := drive.(lowBatteryOpening := false); }
      if !drive.lowBatteryOpening || Since(hw.Millis(), stateTimer) >= config.actuatorTime {
        drive := drive.(lowBatteryOpening := false);
        ForceAllRelaysOff();
      }
    }

    method EndProtection()
      requires Fit()
      modifies this, hw`bus, filter, filter.history
      ensures Fit()
      ensures State() == LeaveProtection(old(State()))
    {
      hide ForceOff, TransitionTo;
      ForceOffSense(State());
      ForceAllRelaysOff();
      drive := drive.(lowBatteryOpening := false);
      filter.Reset();
      sense := sense.(maintenanceRequested := false, calibration := false, deadlock := false,
                      deadlockClear := 0, cooling := false, lastDetect := 0,
                      distance := 999.0, window := ALL_FAR, blindStart := hw.Millis());
      Transition(Idle);
    }

    method ServicePowerPolicy(env: Env) returns (done: bool)
      requires Valid()
      modifies this, hw, battery, filter, filter.history
      ensures Valid()
      ensures Served(State(), done) == ServicePower(old(State()), env)
    {
      hide Inv, Remembered, PeriodicRead, SuperviseCharge, EnterProtection, Protect, LeaveProtection, ForceOff, TakeSnapshot, Replay,
           Lid.MotorRunning;
      ServicePowerKeeps(State(), env);
      ServicePowerRecorded(State(), env);
      var moving := State().MotorRunning();
      ReadPeriodically(env.reading);
      var after := State().Power();
      if charge.active {
        SuperviseChargingClose();
        return true;
      }
      if after.protectedMode {
        if state == OtaUpdating {
          ForceAllRelaysOff();
          return true;
        }
        if state != BatteryLowShutdown {
          BeginProtection(env);
        }
        KeepProtection(after.valid);
        return true;
      }
      if state == BatteryLowShutdown {
        EndProtection();
        return true;
      }
      done := !after.actuationAllowed && !moving;
    }

    // ---- The state machine ----

    method RunStartup(env: Env)
      requires Fit()
      modifies this, hw, battery
      ensures Fit() && State() == TickStartup(old(State()), env)
    {
      hide AllOff, TransitionTo, Replay;
      StopMotion(env);
      if Since(hw.Millis(), stateTimer) >= 500 {
        sense := sense.(calibration := true);
        Transition(OpenStart);
      }
    }

    method StopMotion(env: Env)
      requires Fit()
      modifies this, hw, battery
      ensures Fit() && State() == AllOff(old(State()), env)
    {
      hide SetRelays, Replay;
      SetRelayStates(false, false, false, env);
    }

    /** The path has to stay clear for ten seconds before a deadlock is forgotten. */
    method Heal()
      requires Fit()
      modifies this`sense
      ensures Fit()
      ensures sense == Healed(old(sense), config.distThreshold, hw.Millis())
    {
      if sense.distance > config.distThreshold {
        if sense.deadlock {
          if sense.deadlockClear == 0 {
            sense := sense.(deadlockClear := hw.Millis());
          } else if Since(hw.Millis(), sense.deadlockClear) >= 10000 {
            sense := sense.(deadlock := false, deadlockClear := 0);
          }
        }
      } else {
        sense := sense.(deadlockClear := 0);
      }
    }

    method RunIdle(env: Env)
      requires Fit()
      modifies this, hw, battery
      ensures Fit() && State() == TickIdle(old(State()), env)
    {
      hide AllOff, TransitionTo, Replay, Healed;
      StopMotion(env);
      sense := sense.(calibration := false);
      Heal();
      var now := hw.Millis();
      if sense.blindStart != 0 && Since(now, sense.blindStart) < 3000 {
        sense := sense.(lastDetect := 0);
      } else if 2.0 < sense.distance < config.distThreshold && !sense.cooling {
        if !sense.deadlock {
          if sense.lastDetect == 0 {
            sense := sense.(lastDetect := now);
          } else if Since(now, sense.lastDetect) >= config.debounceDelay {
            sense := sense.(lastDetect := 0);
            Transition(OpenStart);
          }
        } else {
          sense := sense.(lastDetect := 0);
        }
      } else {
        sense := sense.(lastDetect := 0);
      }
    }

    method RunStart(open: bool, env: Env)
      requires Fit()
      modifies this, hw, battery
      ensures Fit()
      ensures State() == if open then TickOpenStart(old(State()), env) else TickCloseStart(old(State()), env)
    {
      hide SetRelays, TransitionTo, Replay;
      SetRelayStates(true, open, !open, env);
      Transition(if open then Opening else Closing);
    }

    /** After the 500 ms of inrush, consecutive overcurrent ticks are counted. */
    method CountOpenStall(elapsed: u32)
      modifies this`drive
      ensures drive == old(drive).(openStalls :=
                if elapsed > 500 && config.currentStallLimit.Lt(motorCurrent.Abs()) then old(drive).openStalls + 1 else 0)
    {
      if elapsed > 500 {
        if config.currentStallLimit.Lt(motorCurrent.Abs()) {
          drive := drive.(openStalls := drive.openStalls + 1);
        } else {
          drive := drive.(openStalls := 0);
        }
      } else {
        drive := drive.(openStalls := 0);
      }
    }

    method RunOpening(env: Env)
      requires Fit()
      modifies this, hw, battery
      ensures Fit() && State() == TickOpening(old(State()), env)
    {
      hide Opened, ForceOff, TransitionTo, Replay, Float.Lt, Float.Abs;
      var elapsed := Since(hw.Millis(), stateTimer);
      CountOpenStall(elapsed);
      if drive.openStalls >= 3 {
        drive := drive.(openStalls := 0);
        ForceAllRelaysOff();
        Transition(Hold);
        return;
      }
      if elapsed >= config.actuatorTime {
        drive := drive.(openStalls := 0);
        CompleteOpening(env);
      }
    }

    method CompleteOpening(env: Env)
      requires Fit()
      modifies this, hw, battery
      ensures Fit() && State() == Opened(old(State()), env)
    {
      hide AllOff, TransitionTo, Replay;
      AllOffSense(State(), env);
      StopMotion(env);
      Transition(if sense.maintenanceRequested then Maintenance else Hold);
    }

    method RunHold(env: Env)
      requires Fit()
      modifies this, hw, battery
      ensures Fit() && State() == TickHold(old(State()), env)
    {
      hide AllOff, TransitionTo, Replay;
      StopMotion(env);
      if Since(hw.Millis(), sense.holdStart) >= config.maxHoldTime {
        sense := sense.(deadlock := true);
        Transition(CloseStart);
        return;
      }
      if !sense.calibration && 0.0 < sense.distance < config.distThreshold {
        stateTimer := hw.Millis();
      }
      if Since(hw.Millis(), stateTimer) >= config.waitTime {
        Transition(CloseStart);
      }
    }

    /** After the 500 ms of inrush, consecutive overcurrent ticks are counted. */
    method CountCloseStall(elapsed: u32)
      modifies this`drive
      ensures drive == old(drive).(closeStalls :=
                if elapsed > 500 && config.currentStallLimit.Lt(motorCurrent.Abs()) then old(drive).closeStalls + 1 else 0)
    {
      if elapsed > 500 {
        if config.currentStallLimit.Lt(motorCurrent.Abs()) {
          drive := drive.(closeStalls := drive.closeStalls + 1);
        } else {
          drive := drive.(closeStalls := 0);
        }
      } else {
        drive := drive.(closeStalls := 0);
      }
    }

    method RunClosing(env: Env)
      requires Fit()
      modifies this, hw, battery
      ensures Fit() && State() == TickClosing(old(State()), env)
    {
      hide ForceOff, CloseOn, TransitionTo, Replay, Float.Lt, Float.Abs;
      var elapsed := Since(hw.Millis(), stateTimer);
      CountCloseStall(elapsed);
      if drive.closeStalls >= 3 {
        drive := drive.(closeStalls := 0);
        ForceAllRelaysOff();
        Transition(EmergencyStop);
        return;
      }
      ContinueClosing(elapsed, env);
    }

    /** Safety reopen, or completion after the actuator time. */
    method ContinueClosing(elapsed: u32, env: Env)
      requires Fit()
      modifies this, hw, battery
      ensures Fit() && State() == CloseOn(old(State()), elapsed, env)
    {
      hide AllOff, Closed, TransitionTo, Replay;
      if !sense.calibration && 0.0 < sense.distance < config.distThreshold && !sense.deadlock {
        drive := drive.(closeStalls := 0);
        StopMotion(env);
        Transition(OpenStart);
        return;
      }
      if elapsed >= config.actuatorTime {
        drive := drive.(closeStalls := 0);
        CompleteClosing(env);
      }
    }

    method CompleteClosing(env: Env)
      requires Fit()
      modifies this, hw, battery
      ensures Fit() && State() == Closed(old(State()), env)
    {
      hide AllOff, TransitionTo, Replay;
      StopMotion(env);
      sense := sense.(cooling := true, cooldownTimer := hw.Millis(), blindStart := hw.Millis());
      Transition(Idle);
    }

    method RunEmergency()
      requires Fit()
      modifies this, hw`bus
      ensures Fit()
      ensures State() == TickEmergency(old(State()))
    {
      hide ForceOff, TransitionTo;
      ForceAllRelaysOff();
      if Since(hw.Millis(), stateTimer) >= config.emergencyRecoveryTime {
        drive := drive.(isolated := false);
        sense := sense.(cooling := true, cooldownTimer := hw.Millis());
        if 0.0 < sense.distance < config.distThreshold && !sense.deadlock {
          Transition(OpenStart);
        } else {
          Transition(Idle);
        }
      }
    }

    method RunMaintenance(env: Env)
      requires Fit()
      modifies this, hw, battery
      ensures Fit() && State() == TickMaintenance(old(State()), env)
    {
      hide AllOff, TransitionTo, Replay;
      StopMotion(env);
      if Since(hw.Millis(), stateTimer) >= 300000 {
        sense := sense.(maintenanceRequested := false);
        Transition(CloseStart);
      }
    }

    method Observe(raw: real)
      requires Fit()
      modifies this`sense, filter, filter.history
      ensures Fit()
      ensures State() == Observed(old(State()), raw)
    {
      hide TakeSnapshot, Pushed, Median, Looked;
      var period: u32 := if State().Power().state == Saving then 100 else 50;
      if Since(hw.Millis(), sense.sensorTimer) >= period {
        Look(raw);
      }
      if sense.cooling && Since(hw.Millis(), sense.cooldownTimer) >= config.cooldownTime {
        sense := sense.(cooling := false);
      }
    }

    /** One reading into the ring, and its filtered distance out. */
    method Look(raw: real)
      requires Fit()
      modifies this`sense, filter, filter.history
      ensures Fit()
      ensures sense == Looked(old(sense), hw.Millis(), raw)
    {
      hide Pushed, Median;
      sense := sense.(sensorTimer := hw.Millis());
      filter.UpdateBuffer(raw);
      var filtered := filter.GetFilteredDistance();
      sense := sense.(window := Pushed(sense.window, raw), distance := filtered);
    }

    method RunCurrentState(env: Env)
      requires Fit()
      modifies this, hw, battery
      ensures Fit() && State() == RunState(old(State()), env)
    {
      hide TickStartup, TickIdle, TickOpenStart, TickOpening, TickHold, TickCloseStart, TickClosing, TickEmergency,
           TickMaintenance, ForceOff, Replay;
      match state
      case StartupOpen => RunStartup(env);
      case Idle => RunIdle(env);
      case OpenStart => RunStart(true, env);
      case Opening => RunOpening(env);
      case Hold => RunHold(env);
      case CloseStart => RunStart(false, env);
      case Closing => RunClosing(env);
      case EmergencyStop => RunEmergency();
      case Maintenance => RunMaintenance(env);
      case BatteryLowShutdown =>
        if Since(hw.Millis(), stateTimer) >= config.actuatorTime { ForceAllRelaysOff(); }
      case OtaUpdating => ForceAllRelaysOff();
    }

    method Tick(env: Env)
      requires Valid()
      modifies this, hw, battery, filter, filter.history
      ensures Valid() && State() == Update(old(State()), env)
    {
      hide Inv, Remembered, ServicePower, RunState, Observed, Replay;
      UpdateKeeps(State(), env);
      UpdateRecorded(State(), env);
      var done := ServicePowerPolicy(env);
      if done { return; }
      if state == OtaUpdating { return; }
      Observe(env.distance);
      RunCurrentState(env);
    }

    // ---- Commands ----

    method CommandOpen()
      requires Valid()
      modifies this, hw`bus
      ensures Valid()
      ensures State() == ForceOpen(old(State()))
      ensures state == old(if Admits(BatteryOf(State())) then Obeyed(CmdOpen, state) else state)
    {
      hide Good, TransitionTo, TakeSnapshot, Admits, Obeyed;
      OrdersGood(State());
      OrdersObeyed(State());
      if state == OpenStart || state == Opening { return; }
      if State().Power().actuationAllowed && state != OtaUpdating && state != BatteryLowShutdown && state != EmergencyStop {
        sense := sense.(deadlock := false, cooling := false, deadlockClear := 0);
        Transition(OpenStart);
      }
    }

    method CommandClose()
      requires Valid()
      modifies this, hw`bus
      ensures Valid()
      ensures State() == ForceClose(old(State()))
      ensures state == old(if Admits(BatteryOf(State())) then Obeyed(CmdClose, state) else state)
    {
      hide Good, TransitionTo, TakeSnapshot, Admits, Obeyed;
      OrdersGood(State());
      OrdersObeyed(State());
      if State().Power().actuationAllowed && state != OtaUpdating && state != BatteryLowShutdown && state != EmergencyStop {
        if state != Closing && state != CloseStart {
          sense := sense.(maintenanceRequested := false, deadlock := false, cooling := false, deadlockClear := 0);
          Transition(CloseStart);
        }
      }
    }

    method CommandReset()
      requires Valid()
      modifies this
      ensures Valid()
      ensures State() == ResetEmergency(old(State()))
      ensures state == old(if Admits(BatteryOf(State())) then Obeyed(CmdReset, state) else state)
    {
      hide Good, TakeSnapshot, Admits, Obeyed;
      OrdersGood(State());
      OrdersObeyed(State());
      if State().Power().actuationAllowed && state == EmergencyStop {
        state := Idle;
        sense := sense.(cooling := true, cooldownTimer := hw.Millis());
        drive := drive.(isolated := false);
      }
    }

    method CommandMaintenance()
      requires Valid()
      modifies this, hw`bus
      ensures Valid() && State() == StartMaintenance(old(State()))
      ensures state == old(if Admits(BatteryOf(State())) then Obeyed(CmdMaintain, state) else state)
    {
      hide Good, TransitionTo, TakeSnapshot, Admits, Obeyed;
      MaintenanceGood(State());
      OrdersObeyed(State());
      if !State().Power().actuationAllowed || state == BatteryLowShutdown || state == EmergencyStop || state == OtaUpdating {
        return;
      }
      sense := sense.(maintenanceRequested := true);
      if state == Hold || state == StartupOpen {
        Transition(Maintenance);
      } else if state != Maintenance && state != Opening && state != OpenStart {
        Transition(OpenStart);
      }
    }

    method CommandEndMaintenance()
      requires Valid()
      modifies this, hw`bus
      ensures Valid() && State() == StopMaintenance(old(State()))
      ensures state == old(Obeyed(CmdEndMaintain, state))
    {
      hide Good, TransitionTo, Admits, Obeyed;
      MaintenanceGood(State());
      OrdersObeyed(State());
      if state == OtaUpdating { return; }
      sense := sense.(maintenanceRequested := false);
      if state == Maintenance { Transition(CloseStart); }
    }

    /** `accepted` tells the owner; a request refused after its reading still leaves that reading. */
    method CommandChargingClose(ttl: u32, env: Env) returns (accepted: bool)
      requires Valid()
      modifies this, hw, battery
      ensures Valid() && State() == RequestChargingClose(old(State()), ttl, env)
      ensures accepted ==> charge.active && !old(charge).used
    {
      hide Inv, Remembered, ReadSensors, ChargingPowerSafe, SetRelays, Replay, TakeSnapshot, Lid.MotorRunning, Float.Le, Float.Abs;
      RequestKeeps(State(), ttl, env);
      RequestRecorded(State(), ttl, env);
      if charge.used || ttl == 0 || ttl > 120000 || state != BatteryLowShutdown || State().MotorRunning() ||
         config.actuatorTime == 0 {
        return false;
      }
      ghost var before := State();
      ReadAllSensors(env.reading);
      if !ChargingPowerSafe(State()) || !battery.latch.held || !motorCurrent.Abs().Le(Fin(50.0)) {
        return false;
      }
      StartChargingClose(ttl, env);
      accepted := charge.active;
    }

    method StartChargingClose(ttl: u32, env: Env)
      requires Fit()
      modifies this, hw, battery
      ensures Fit()
      ensures
        var l := SetRelays(ChargeBegun(old(State()), ttl), true, false, true, env);
        State() == if l.charge.active then l.(charge := l.charge.(at := l.Now())) else l
    {
      hide SetRelays, Replay;
      charge := charge.(used := true, active := true, result := Running,
                        requestAt := hw.Millis(), ttl := ttl, stalls := 0);
      drive := drive.(lowBatteryOpening := false);
      sense := sense.(maintenanceRequested := false, calibration := false);
      HoldLatch();
      SetRelayStates(true, false, true, env);
      if charge.active {
        charge := charge.(at := hw.Millis());
      }
    }

    // ---- Updates ----

    method BeginUpdate(recovery: bool, maintenance: bool) returns (reserved: bool)
      requires Valid()
      modifies this, hw`bus
      ensures Valid()
      ensures State() == TryBeginOta(old(State()), recovery, maintenance)
      ensures reserved == CanStartOta(old(State()), recovery, maintenance)
    {
      hide Good, ForceOff, TransitionTo, CanStartOta;
      BeginGood(State(), recovery, maintenance);
      if !CanStartOta(State(), recovery, maintenance) { return false; }
      ForceAllRelaysOff();
      ota := ota.(recovery := recovery, maintenance := maintenance);
      if recovery || maintenance {
        ota := ota.(used := true, at := hw.Millis());
      }
      Transition(OtaUpdating);
      reserved := true;
    }

    method EndUpdate()
      requires Valid()
      modifies this, hw`bus, battery
      ensures Valid() && State() == FinishOta(old(State()))
    {
      hide Good, ForceOff, TransitionTo, Replay;
      FinishGood(State());
      ota := ota.(recovery := false, maintenance := false);
      ForceAllRelaysOff();
      drive := drive.(lowBatteryOpening := false);
      var held := battery.latch.held;
      if held { HoldLatch(); }
      Transition(if held then BatteryLowShutdown else Idle);
      sense := sense.(blindStart := hw.Millis());
    }

    /** Any operation, as the tasks of the firmware call it. */
    method Do(op: Op)
      requires Valid()
      modifies this, hw, battery, filter, filter.history
      ensures Valid() && State() == Perform(old(State()), op)
      ensures Prefix(old(hw.bus.log), hw.bus.log) && old(hw.clock) <= hw.clock
    {
      hide Inv, Remembered, Update, ServicePower, ForceOpen, ForceClose, ResetEmergency, StartMaintenance, StopMaintenance,
           RequestChargingClose, TryBeginOta, FinishOta, Replay;
      GoodKeeps(State(), op);
      PerformExtends(State(), op);
      match op {
        case Advance(ms) => hw.clock := hw.clock + ms;
        case Tick(env) => Tick(env);
        case OtaPower(env) => var _ := ServicePowerPolicy(env);
        case CmdOpen => CommandOpen();
        case CmdClose => CommandClose();
        case CmdReset => CommandReset();
        case CmdMaintain => CommandMaintenance();
        case CmdEndMaintain => CommandEndMaintenance();
        case Configure(c) => config := c;
        case CloseForCharging(ttl, env) => var _ := CommandChargingClose(ttl, env);
        case BeginUpdate(recovery, maintenance) => var _ := BeginUpdate(recovery, maintenance);
        case EndUpdate => EndUpdate();
      }
    }

    method DoAll(ops: seq<Op>)
      requires Valid()
      modifies this, hw, battery, filter, filter.history
      ensures Valid() && State() == RunOps(old(State()), ops)
      decreases |ops|
    {
      hide Inv, Remembered, Perform, Replay;
      if ops != [] {
        Do(ops[0]);
        DoAll(ops[1..]);
      }
    }
  }

  lemma AllOffSense(l: Lid, env: Env)
    ensures AllOff(l, env).sense == l.sense
  {
    hide Bus.Do;
  }

  lemma ForceOffSense(l: Lid)
    ensures ForceOff(l).sense == l.sense && ForceOff(l).clock == l.clock
  {
  }

  lemma SwitchFrame(l: Lid, mainOn: bool, open: bool, close: bool, env: Env)
    ensures SwitchDirection(l, mainOn, open, close, env.slackA, env.slackB).charge == l.charge
  {
    hide Bus.Do;
  }
}
