/** What each relay primitive of the controller does to the pins and the log. */
module LidWiring {
  import opened Numeric
  import opened BatteryPolicy
  import opened Gpio
  import opened Lid

  predicate Logged(l: Lid) {
    var p := l.bus.pins;
    && l.bus.Consistent() && SafeLog(l.bus.log)
    && p.at <= l.clock && p.mainOffSince <= l.clock && p.lastDirWrite <= l.clock
  }

  /** The pins are as the controller remembers them ... */
  predicate Joined(l: Lid) {
    var p, d := l.bus.pins, l.drive;
    && Logged(l)
    && (d.lastOpen || d.lastClose ==> p.lastDirWrite + CONTACT_MS <= l.clock)
    && p.aHigh == !d.lastOpen && p.bHigh == !d.lastClose && !(d.lastOpen && d.lastClose)
    && p.aMode == p.bMode
    && (p.strokes > 0 ==> p.nvs.Durable())
  }

  /** ... and isolated if it says so. If it does not, undriven direction pins were not
      last set for opening. */
  predicate Wired(l: Lid) {
    && Joined(l)
    && (l.drive.isolated ==> !l.bus.pins.mainOn && l.bus.pins.aMode == Input)
    && (!l.drive.isolated && l.bus.pins.aMode == Input ==> !l.drive.lastOpen)
  }

  lemma EmitLogged(l: Lid, e: Event)
    requires Logged(l) && Safe(l.bus.pins, l.clock, e)
    ensures Logged(Emit(l, e))
    ensures Emit(l, e).bus.pins == After(l.bus.pins, l.clock, e)
  {
    l.bus.DoKeeps(l.clock, e);
  }

  lemma ForceOffWired(l: Lid)
    requires Joined(l)
    ensures
      var l' := ForceOff(l);
      && Wired(l')
      && l' == l.(bus := l'.bus, drive := l.drive.(isolated := true))
      && l'.bus.pins.strokes == l.bus.pins.strokes && l'.bus.pins.nvs == l.bus.pins.nvs
      && l'.bus.pins.evidence == l.bus.pins.evidence && l'.bus.pins.closes == l.bus.pins.closes
  {
    hide SafeLog, Pinned;
    var a := Emit(l, MainOff);
    var b := Emit(a, DirMode(DirA, Input));
    EmitLogged(l, MainOff);
    EmitLogged(a, DirMode(DirA, Input));
    EmitLogged(b, DirMode(DirB, Input));
  }

  /** What a transition to `next` records. */
  function RecordedNvs(nvs: Nvs, held: bool, next: FsmState): Nvs {
    if next == OtaUpdating then nvs
    else Nvs(held,
             if next == Hold || next == Opening || next == BatteryLowShutdown || next == StartupOpen then true
             else if next == Idle || next == Closing then false
             else nvs.lidOpen)
  }

  lemma TransitionWired(l: Lid, next: FsmState)
    requires Wired(l)
    requires l.bus.pins.strokes > 0 ==> l.policy.latch.held
    ensures
      var l' := TransitionTo(l, next);
      && Wired(l')
      && l' == Moved(l, next).(bus := l'.bus)
      && l'.bus.pins == l.bus.pins.(nvs := RecordedNvs(l.bus.pins.nvs, l.policy.latch.held, next), at := l'.bus.pins.at)
  {
    hide SafeLog, Pinned;
    var m := Moved(l, next);
    if next != OtaUpdating {
      var held := Emit(m, SaveHold(l.policy.latch.held));
      EmitLogged(m, SaveHold(l.policy.latch.held));
      if next == Hold || next == Opening || next == BatteryLowShutdown || next == StartupOpen {
        EmitLogged(held, SaveLid(true));
      } else if next == Idle || next == Closing {
        EmitLogged(held, SaveLid(false));
      }
    }
  }

  lemma Neutralised(l: Lid, mainOn: bool, slack: nat)
    requires Wired(l)
    ensures
      var l' := Neutralise(l, mainOn, slack);
      && Logged(l')
      && l' == l.(bus := l'.bus, clock := l.clock + CONTACT_MS + slack)
      && l'.bus.pins == l.bus.pins.(mainOn := false, aHigh := true, bHigh := true,
                                    mainOffSince := l'.bus.pins.mainOffSince, lastDirWrite := l'.bus.pins.lastDirWrite,
                                    aMode := if mainOn then Output else l.bus.pins.aMode,
                                    bMode := if mainOn then Output else l.bus.pins.bMode, at := l'.bus.pins.at)
      && l'.bus.pins.mainOffSince + CONTACT_MS <= l'.clock
  {
    hide SafeLog, Pinned;
    EmitLogged(l, MainOff);
    var broken := Wait(Emit(l, MainOff), slack);
    EmitLogged(broken, DirWrite(DirA, true));
    var n := Emit(broken, DirWrite(DirA, true));
    EmitLogged(n, DirWrite(DirB, true));
    if mainOn {
      var neutral := Emit(n, DirWrite(DirB, true));
      EmitLogged(neutral, DirMode(DirA, Output));
      EmitLogged(Emit(neutral, DirMode(DirA, Output)), DirMode(DirB, Output));
    }
  }

  lemma SwitchWired(l: Lid, mainOn: bool, open: bool, close: bool, slackA: nat, slackB: nat)
    requires Wired(l) && !(open && close) && (mainOn || !open)
    requires DirectionChanges(l, mainOn, open, close)
    ensures
      var l' := SwitchDirection(l, mainOn, open, close, slackA, slackB);
      && Joined(l') && (!mainOn ==> Wired(l'))
      && l' == l.(bus := l'.bus, clock := l.clock + 2 * CONTACT_MS + slackA + slackB,
                  drive := l.drive.(lastOpen := open, lastClose := close))
      && l'.bus.pins == l.bus.pins.(mainOn := false, aHigh := !open, bHigh := !close,
                                    mainOffSince := l'.bus.pins.mainOffSince, lastDirWrite := l'.bus.pins.lastDirWrite,
                                    aMode := if mainOn then Output else l.bus.pins.aMode,
                                    bMode := if mainOn then Output else l.bus.pins.bMode, at := l'.bus.pins.at)
      && l'.bus.pins.lastDirWrite + CONTACT_MS <= l'.clock
  {
    hide SafeLog, Pinned, Neutralise;
    Neutralised(l, mainOn, slackA);
    var n := Neutralise(l, mainOn, slackA);
    EmitLogged(n, DirWrite(DirA, !open));
    EmitLogged(Emit(n, DirWrite(DirA, !open)), DirWrite(DirB, open || !close));
  }

  /** What is left of the latch and the counted strokes belongs together. */
  predicate Owned(l: Lid) {
    l.bus.pins.strokes > 0 ==> l.policy.latch.held
  }

  lemma ReadWired(l: Lid, r: Reading)
    requires Joined(l) && Owned(l) && WellFormed(l.policy)
    ensures
      var l' := ReadSensors(l, r);
      && Joined(l') && (Wired(l) ==> Wired(l')) && Owned(l') && WellFormed(l'.policy)
      && l' == l.(bus := l'.bus, lastPowerReading := l.Now(), motorCurrent := r.current,
                  lastVerified := l'.lastVerified, policy := NextPolicy(l, r))
      && l'.bus.pins == l.bus.pins.(evidence := Some(Evidence(r, l.config.voltageShutdownLimit, l.clock)),
                                    strokes := l'.bus.pins.strokes, at := l.clock)
      && l'.policy.sampled && l'.policy.sampleAt == l.Now()
      && (l'.Power().valid <==> Usable(r.voltage, r.ok && r.current.Fin?))
      && l'.Power().voltage == r.voltage
      && (l'.bus.pins.strokes > 0 ==> l.bus.pins.strokes > 0)
  {
    hide SafeLog, Pinned, WellFormed, Restored;
    StepsKeepWellFormed(l.policy, l.Now(), r.voltage, r.ok && r.current.Fin?, l.config.voltageShutdownLimit);
    var e := ReadPower(r, l.config.voltageShutdownLimit);
    EmitLogged(l, e);
    if l.policy.latch.held && !NextPolicy(l, r).latch.held {
      EmitLogged(Emit(l, e), LatchReleased);
    }
  }

  /** Holding the latch again drives nothing. */
  lemma RearmWired(l: Lid)
    requires Joined(l)
    ensures
      var l' := Rearmed(l);
      && Joined(l') && (Wired(l) ==> Wired(l'))
      && l' == l.(bus := l'.bus, policy := Restored(l.policy)) && l'.bus.pins == l.bus.pins.(at := l.clock)
  {
    hide SafeLog, Pinned;
    EmitLogged(l, LatchRestored);
  }

  lemma AllOffWired(l: Lid, env: Env)
    requires Wired(l)
    ensures
      var l' := AllOff(l, env);
      && Wired(l')
      && l' == l.(bus := l'.bus, clock := l'.clock, drive := l.drive.(lastOpen := false, lastClose := false))
      && !l'.bus.pins.mainOn && l'.bus.pins.strokes == l.bus.pins.strokes && l'.bus.pins.nvs == l.bus.pins.nvs
      && l'.bus.pins.closes == l.bus.pins.closes && l'.clock >= l.clock
  {
    hide SafeLog, Pinned, SwitchDirection;
    if DirectionChanges(l, false, false, false) {
      SwitchWired(l, false, false, false, env.slackA, env.slackB);
      EmitLogged(SwitchDirection(l, false, false, false, env.slackA, env.slackB), MainOff);
    } else {
      EmitLogged(l, MainOff);
    }
  }

  /** Energising one direction outside a charging close. Under protection this needs the
      record and no earlier stroke. */
  lemma StrokeWired(l: Lid, open: bool, env: Env)
    requires Wired(l) && !l.charge.active
    requires l.policy.latch.held ==> open && l.bus.pins.nvs.hold && l.bus.pins.strokes == 0
    ensures
      var l' := SetRelays(l, true, open, !open, env);
      && Wired(l')
      && l' == l.(bus := l'.bus, clock := l'.clock,
                  drive := l.drive.(isolated := false, lastOpen := open, lastClose := !open))
      && l'.bus.pins.mainOn && l'.bus.pins.nvs == l.bus.pins.nvs
      && l'.bus.pins.strokes == (if l.policy.latch.held then 1 else l.bus.pins.strokes)
      && l'.bus.pins.aMode == (if DirectionChanges(l, true, open, !open) then Output else l.bus.pins.aMode)
      && l'.bus.pins.closes == l.bus.pins.closes && l'.clock >= l.clock
  {
    hide SafeLog, Pinned, SwitchDirection;
    var s := l;
    if DirectionChanges(l, true, open, !open) {
      SwitchWired(l, true, open, !open, env.slackA, env.slackB);
      s := SwitchDirection(l, true, open, !open, env.slackA, env.slackB);
    }
    EmitLogged(s, MainOn(PurposeOf(l)));
  }
}
