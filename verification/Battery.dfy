/** The battery policy as the firmware keeps it: an object whose fields each
    sample updates in place. Its abstract value is a `Policy`; its ghost history
    is what it has seen, so every theorem about histories holds of every object. */
module Battery {
  import opened Numeric
  import opened BatteryPolicy
  import opened BatteryHistory
  import opened BatteryDwell
  import opened BatterySnapshot

  class Monitor {
    var display: Display
    var latch: Latch
    var healthy: Timer
    var force: Timer
    var warning: Timer
    var valid: bool
    var sampled: bool
    var sampleAt: u32
    var admissionKnown: bool
    var admissionVoltage: real
    var voltage: Float
    var minimum: real
    var cutoff: real
    var recovery: real
    var forceFloor: real
    ghost var history: History

    ghost predicate Valid()
      reads this
    {
      Value() == Replay(history)
    }

    function Value(): Policy
      reads this
    {
      Policy(display, latch, healthy, force, warning, valid, sampled, sampleAt,
             admissionKnown, admissionVoltage, voltage, minimum, cutoff, recovery, forceFloor)
    }

    constructor ()
      ensures Valid() && history == [] && Value() == INITIAL
    {
      display, latch := Display(Unknown, Unknown, IDLE_TIMER), Latch(false, IDLE_TIMER, IDLE_TIMER, 0);
      healthy, force, warning := IDLE_TIMER, IDLE_TIMER, IDLE_TIMER;
      valid, sampled, sampleAt := false, false, 0;
      admissionKnown, admissionVoltage := false, 0.0;
      voltage, minimum, cutoff, recovery, forceFloor := Fin(0.0), 0.0, DEFAULT_CUTOFF, 12.0, 11.7;
      history := [];
    }

    method RestoreProtection()
      requires Valid()
      modifies this
      ensures Valid() && history == old(history) + [Restore]
      ensures Value() == Restored(old(Value()))
    {
      hide Replay, Sampled;
      ReplayGrows(history, Restore);
      latch := latch.(held := true, recovery := latch.recovery.Stop(), low := latch.low.Stop());
      display := display.(state := Protected, pending := display.pending.Stop());
      healthy, force := healthy.Stop(), force.Stop();
      history := history + [Restore];
    }

    method StopTimers()
      modifies this`warning, this`latch, this`healthy, this`force, this`display
      ensures warning == old(warning).Stop() && healthy == old(healthy).Stop() && force == old(force).Stop()
      ensures latch == old(latch).(low := old(latch).low.Stop(), recovery := old(latch).recovery.Stop())
      ensures display == old(display).(pending := old(display).pending.Stop())
    {
      warning, healthy, force := warning.Stop(), healthy.Stop(), force.Stop();
      latch := latch.(low := latch.low.Stop(), recovery := latch.recovery.Stop());
      display := display.(pending := display.pending.Stop());
    }

    /** `at` is the real time the counter value `now` stands for. */
    method TakeSample(now: u32, v: Float, ok: bool, limit: Float, ghost at: nat)
      requires Valid() && now == Wrap(at)
      modifies this
      ensures Valid() && history == old(history) + [Sample(at, v, ok, limit)]
      ensures Value() == Sampled(old(Value()), now, v, ok, limit)
    {
      hide Replay, Sampled;
      ReplayGrows(history, Sample(at, v, ok, limit));
      Intake(now, v, ok, limit);
      history := history + [Sample(at, v, ok, limit)];
    }

    method Intake(now: u32, v: Float, ok: bool, limit: Float)
      modifies this
      ensures history == old(history) && Value() == Sampled(old(Value()), now, v, ok, limit)
    {
      hide Received, Faulted, Accepted, Sampled;
      SampledInHalves(Value(), now, v, ok, limit);
      TakeIn(now, v, ok, limit);
      if !valid {
        Fault();
      } else {
        Use(now, v.r);
      }
    }

    method TakeIn(now: u32, v: Float, ok: bool, limit: Float)
      modifies this
      ensures history == old(history) && Value() == Received(old(Value()), now, v, ok, limit)
      ensures valid == Usable(v, ok)
    {
      hide Cutoff, RecoveryVoltage, ForceFloor;
      CheckGap(now);
      Receive(now, v, ok, limit);
    }

    method Use(now: u32, v: real)
      modifies this
      ensures history == old(history) && Value() == Accepted(old(Value()), now, v)
    {
      hide LatchStep, Shown, Timer.Dwell;
      Accept(now, v);
    }

    /** More than two seconds since the last sample stop every timer. */
    method CheckGap(now: u32)
      modifies this`warning, this`latch, this`healthy, this`force, this`display
      ensures
        var gap := sampled && Since(now, sampleAt) > MAX_SAMPLE_GAP_MS;
        && warning == old(warning).StopIf(gap) && healthy == old(healthy).StopIf(gap) && force == old(force).StopIf(gap)
        && latch == old(latch).(low := old(latch).low.StopIf(gap), recovery := old(latch).recovery.StopIf(gap))
        && display == old(display).(pending := old(display).pending.StopIf(gap))
    {
      if sampled && Since(now, sampleAt) > MAX_SAMPLE_GAP_MS {
        StopTimers();
      }
    }

    /** Thresholds, evidence and validity; nothing is timed yet. */
    method Receive(now: u32, v: Float, ok: bool, limit: Float)
      modifies this`sampled, this`sampleAt, this`cutoff, this`recovery, this`forceFloor,
               this`admissionKnown, this`admissionVoltage, this`valid, this`voltage
      ensures sampled && sampleAt == now && voltage == v && valid == Usable(v, ok)
      ensures cutoff == Cutoff(limit) && recovery == RecoveryVoltage(limit) && forceFloor == ForceFloor(limit)
      ensures
        var known := ok && v.Fin? && v.r > 0.0;
        && admissionKnown == (old(admissionKnown) || known)
        && admissionVoltage == if known then v.r else old(admissionVoltage)
    {
      sampled, sampleAt := true, now;
      cutoff := if limit.Fin? && 0.0 < limit.r < 25.0 then limit.r else DEFAULT_CUTOFF;
      recovery := Max(12.0, cutoff + 0.7);
      forceFloor := Max(11.7, cutoff + 0.4);
      if ok && v.Fin? && v.r > 0.0 {
        admissionKnown, admissionVoltage := true, v.r;
      }
      valid := ok && v.Fin? && 0.0 < v.r <= MAX_VOLTAGE;
      voltage := v;
    }

    method Fault()
      modifies this
      ensures history == old(history) && Value() == Faulted(old(Value()))
    {
      display := display.(state := SensorFault);
      StopTimers();
    }

    /** A usable sample drives the timers, then the latch, then the displayed state. */
    method Accept(now: u32, v: real)
      modifies this`warning, this`force, this`minimum, this`healthy, this`latch, this`display
      ensures warning == old(warning).Dwell(v <= LOW_WARNING_VOLTAGE, now)
      ensures force == old(force).Dwell(v >= forceFloor, now)
      ensures minimum == if old(minimum) == 0.0 || v < old(minimum) then v else old(minimum)
      ensures healthy == old(healthy).Dwell(v >= recovery, now)
      ensures latch == LatchStep(old(latch), now, v, cutoff, recovery)
      ensures display == Shown(old(display), latch.held, latch.held != old(latch).held, now, v, cutoff, recovery)
    {
      hide LatchStep, Shown;
      warning := warning.Dwell(v <= LOW_WARNING_VOLTAGE, now);
      force := force.Dwell(v >= forceFloor, now);
      if minimum == 0.0 || v < minimum { minimum := v; }
      healthy := healthy.Dwell(v >= recovery, now);
      var held := latch.held;
      UpdateLatch(now, v);
      Classify(now, v, latch.held != held);
    }

    method UpdateLatch(now: u32, v: real)
      modifies this`latch
      ensures latch == LatchStep(old(latch), now, v, cutoff, recovery)
    {
      if !latch.held {
        if v <= cutoff {
          if !latch.low.on { latch := latch.(low := Timer(true, now)); }
          if Since(now, latch.low.at) >= LATCH_MS {
            latch := latch.(held := true, recovery := latch.recovery.Stop());
          }
        } else {
          latch := latch.(low := latch.low.Stop());
        }
      }
      if latch.held {
        if v >= recovery {
          if !latch.recovery.on { latch := latch.(recovery := Timer(true, now)); }
          if Since(now, latch.recovery.at) >= RECOVERY_MS {
            latch := latch.(held := false, recovery := latch.recovery.Stop(),
                            releases := (latch.releases + 1) % WRAP);
          }
        } else {
          latch := latch.(recovery := latch.recovery.Stop());
        }
      }
    }

    /** `changed`: this sample has set or released the latch. */
    method Classify(now: u32, v: real, changed: bool)
      modifies this`display
      ensures display == Shown(old(display), latch.held, changed, now, v, cutoff, recovery)
    {
      if display.state == SensorFault {
        display := display.(state := Unknown, pending := display.pending.Stop());
      }
      if changed {
        display := display.(pending := display.pending.Stop());
      }
      if latch.held {
        display := display.(state := if v >= recovery then Recovering else Protected);
        return;
      }
      var desired := if v < cutoff + 0.4 then Saving else if v < cutoff + 0.7 then Warning else Normal;
      if display.state == Saving && v < cutoff + 0.5 {
        desired := Saving;
      } else if display.state == Warning && desired == Normal && v < cutoff + 0.8 {
        desired := Warning;
      }
      if display.state == Unknown || desired == display.state {
        display := display.(state := desired, pending := display.pending.Stop());
      } else if !display.pending.on || display.candidate != desired {
        display := display.(candidate := desired, pending := Timer(true, now));
      } else if Since(now, display.pending.at) >= STATE_DWELL_MS {
        display := display.(state := desired, pending := display.pending.Stop());
      }
    }

    /** At real time `at`: what the flags promise of the samples this object has seen. */
    function Snapshot(now: u32, ghost at: nat): (s: Snapshot)
      requires Valid()
      reads this
      ensures s == TakeSnapshot(Value(), now)
      ensures Timed(history) && AskedAt(history, at) && now == Wrap(at) ==>
                && (s.lowWarning ==> HeldFor(SamplesOnly(history), Warned, LOW_WARNING_MS, at))
                && (s.otaReady ==> !latch.held && HeldFor(history, Rising, READY_MS, at))
                && (s.forceOtaReady ==> HeldFor(history, Forced, READY_MS, at))
                && (s.valid <==> Current(history, at))
      ensures s.actuationAllowed <==> Admits(history)
    {
      AdmissionExactly(history, now);
      SnapshotPromises(history, at);
      TakeSnapshot(Value(), now)
    }
  }

  lemma SnapshotPromises(h: History, at: nat)
    ensures
      var s := TakeSnapshot(Replay(h), Wrap(at));
      Timed(h) && AskedAt(h, at) ==>
        && (s.lowWarning ==> HeldFor(SamplesOnly(h), Warned, LOW_WARNING_MS, at))
        && (s.otaReady ==> !Replay(h).latch.held && HeldFor(h, Rising, READY_MS, at))
        && (s.forceOtaReady ==> HeldFor(h, Forced, READY_MS, at))
        && (s.valid <==> Current(h, at))
  {
    hide Replay, TakeSnapshot, HeldFor, SamplesOnly;
    if Timed(h) && AskedAt(h, at) {
      LowWarningMeaning(h, at);
      OtaReadyMeaning(h, at);
      ForceOtaReadyMeaning(h, at);
      ReadingExactly(h, at);
    }
  }
}
