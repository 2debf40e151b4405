/** The battery policy as a value: a record with the fields of the firmware
    class, grouped by the timer or latch they belong to, and the three
    operations on it as functions. */
module BatteryPolicy {
  import opened Numeric

  const DEFAULT_CUTOFF: real := 11.0
  const LOW_WARNING_VOLTAGE: real := 11.0
  const MAX_VOLTAGE: real := 16.0
  const LOW_WARNING_MS: u32 := 300000
  const RECOVERY_MS: u32 := 300000
  const LATCH_MS: u32 := 3000
  const READY_MS: u32 := 30000
  const MAX_SAMPLE_GAP_MS: u32 := 2000
  const STATE_DWELL_MS: u32 := 15000

  datatype BatteryState =
    Normal | Warning | Saving | Protected | Recovering | SensorFault | Unknown

  /** A dwell timer: whether it runs, and the counter value it started at. */
  datatype Timer = Timer(on: bool, at: u32) {

    function Stop(): Timer {
      Timer(false, at)
    }

    function StopIf(condition: bool): Timer {
      if condition then Stop() else this
    }

    /** Starts on the first sample that meets the condition, stops on the first that does not. */
    function Dwell(condition: bool, now: u32): Timer {
      if !condition then Stop() else if on then this else Timer(true, now)
    }

    predicate Reached(now: u32, ms: u32) {
      on && Since(now, at) >= ms
    }
  }

  datatype Latch = Latch(held: bool, low: Timer, recovery: Timer, releases: u32)

  datatype Display = Display(state: BatteryState, candidate: BatteryState, pending: Timer)

  datatype Policy = Policy(
    display: Display, latch: Latch,
    healthy: Timer, force: Timer, warning: Timer,
    valid: bool, sampled: bool, sampleAt: u32,
    admissionKnown: bool, admissionVoltage: real,
    voltage: Float, minimum: real, cutoff: real, recovery: real, forceFloor: real)

  const IDLE_TIMER := Timer(false, 0)

  const INITIAL := Policy(
    Display(Unknown, Unknown, IDLE_TIMER), Latch(false, IDLE_TIMER, IDLE_TIMER, 0),
    IDLE_TIMER, IDLE_TIMER, IDLE_TIMER,
    false, false, 0, false, 0.0,
    Fin(0.0), 0.0, DEFAULT_CUTOFF, 12.0, 11.7)

  datatype Snapshot = Snapshot(
    state: BatteryState, valid: bool, protectedMode: bool, actuationAllowed: bool, otaReady: bool,
    voltage: Float, minimumVoltage: real, recoveryVoltage: real,
    recoveryRemainingMs: u32, recoveryCount: u32, sampleAgeMs: u32, telemetryIntervalMs: u32,
    forceOtaReady: bool, forceOtaVoltage: real, lowWarning: bool, lowWarningElapsedMs: u32)

  /** The cutoff a configured limit stands for. */
  function Cutoff(limit: Float): real {
    if limit.Fin? && 0.0 < limit.r < 25.0 then limit.r else DEFAULT_CUTOFF
  }

  function RecoveryVoltage(limit: Float): real {
    Max(12.0, Cutoff(limit) + 0.7)
  }

  function ForceFloor(limit: Float): real {
    Max(11.7, Cutoff(limit) + 0.4)
  }

  predicate Usable(voltage: Float, ok: bool) {
    ok && voltage.Fin? && 0.0 < voltage.r <= MAX_VOLTAGE
  }

  predicate Gap(p: Policy, now: u32) {
    p.sampled && Since(now, p.sampleAt) > MAX_SAMPLE_GAP_MS
  }

  function Restored(p: Policy): Policy {
    p.(display := Display(Protected, p.display.candidate, p.display.pending.Stop()),
       latch := p.latch.(held := true, low := p.latch.low.Stop(), recovery := p.latch.recovery.Stop()),
       healthy := p.healthy.Stop(), force := p.force.Stop())
  }

  /** Three seconds at or below the cutoff set the latch. */
  function LatchEntry(l: Latch, now: u32, v: real, cutoff: real): Latch {
    if l.held then l
    else
      var low := l.low.Dwell(v <= cutoff, now);
      if v <= cutoff && low.Reached(now, LATCH_MS)
      then Latch(true, low, l.recovery.Stop(), l.releases)
      else l.(low := low)
  }

  /** Three hundred seconds at or above the recovery voltage release it. */
  function LatchRelease(l: Latch, now: u32, v: real, recovery: real): Latch {
    if !l.held then l
    else
      var rising := l.recovery.Dwell(v >= recovery, now);
      if rising.Reached(now, RECOVERY_MS)
      then Latch(false, l.low, rising.Stop(), (l.releases + 1) % WRAP)
      else l.(recovery := rising)
  }

  function LatchStep(l: Latch, now: u32, v: real, cutoff: real, recovery: real): Latch {
    LatchRelease(LatchEntry(l, now, v, cutoff), now, v, recovery)
  }

  /** The displayed state: hysteresis bands and a 15 s dwell. `changed` says that
      the latch was set or released by this sample, which restarts the dwell. */
  function Shown(d: Display, held: bool, changed: bool, now: u32, v: real, cutoff: real, recovery: real): Display {
    var pending := d.pending.StopIf(changed || d.state == SensorFault);
    var state := if d.state == SensorFault then Unknown else d.state;
    if held then Display(if v >= recovery then Recovering else Protected, d.candidate, pending)
    else
      var plain := if v < cutoff + 0.4 then Saving else if v < cutoff + 0.7 then Warning else Normal;
      var desired :=
        if state == Saving && v < cutoff + 0.5 then Saving
        else if state == Warning && plain == Normal && v < cutoff + 0.8 then Warning
        else plain;
      if state == Unknown || desired == state then Display(desired, d.candidate, pending.Stop())
      else if !pending.on || d.candidate != desired then Display(state, desired, Timer(true, now))
      else if pending.Reached(now, STATE_DWELL_MS) then Display(desired, d.candidate, pending.Stop())
      else Display(state, d.candidate, pending)
  }

  function Sampled(p: Policy, now: u32, voltage: Float, ok: bool, limit: Float): Policy {
    var usable := Usable(voltage, ok);
    var broken := Gap(p, now) || !usable;
    var v := if voltage.Fin? then voltage.r else 0.0;
    var cutoff := Cutoff(limit);
    var recovery := RecoveryVoltage(limit);
    var floor := ForceFloor(limit);
    var latch := p.latch.(low := p.latch.low.StopIf(broken), recovery := p.latch.recovery.StopIf(broken));
    var display := p.display.(pending := p.display.pending.StopIf(broken));
    var latch' := if usable then LatchStep(latch, now, v, cutoff, recovery) else latch;
    Policy(
      if usable then Shown(display, latch'.held, latch'.held != latch.held, now, v, cutoff, recovery)
      else display.(state := SensorFault),
      latch',
      if usable then p.healthy.StopIf(broken).Dwell(v >= recovery, now) else p.healthy.Stop(),
      if usable then p.force.StopIf(broken).Dwell(v >= floor, now) else p.force.Stop(),
      if usable then p.warning.StopIf(broken).Dwell(v <= LOW_WARNING_VOLTAGE, now) else p.warning.Stop(),
      usable, true, now,
      p.admissionKnown || (ok && voltage.Fin? && v > 0.0),
      if ok && voltage.Fin? && v > 0.0 then v else p.admissionVoltage,
      voltage,
      if usable && (p.minimum == 0.0 || v < p.minimum) then v else p.minimum,
      cutoff, recovery, floor)
  }

  /** The first half of a sample: a gap stops every timer, and the reading is taken in. */
  function Received(p: Policy, now: u32, voltage: Float, ok: bool, limit: Float): Policy {
    var gap := Gap(p, now);
    var known := ok && voltage.Fin? && voltage.r > 0.0;
    p.(warning := p.warning.StopIf(gap), healthy := p.healthy.StopIf(gap), force := p.force.StopIf(gap),
       latch := p.latch.(low := p.latch.low.StopIf(gap), recovery := p.latch.recovery.StopIf(gap)),
       display := p.display.(pending := p.display.pending.StopIf(gap)),
       sampled := true, sampleAt := now, valid := Usable(voltage, ok), voltage := voltage,
       cutoff := Cutoff(limit), recovery := RecoveryVoltage(limit), forceFloor := ForceFloor(limit),
       admissionKnown := p.admissionKnown || known,
       admissionVoltage := if known then voltage.r else p.admissionVoltage)
  }

  /** The second half for a reading that cannot be used ... */
  function Faulted(p: Policy): Policy {
    p.(warning := p.warning.Stop(), healthy := p.healthy.Stop(), force := p.force.Stop(),
       latch := p.latch.(low := p.latch.low.Stop(), recovery := p.latch.recovery.Stop()),
       display := p.display.(state := SensorFault, pending := p.display.pending.Stop()))
  }

  /** ... and for one that can. */
  function Accepted(p: Policy, now: u32, v: real): Policy {
    var latch := LatchStep(p.latch, now, v, p.cutoff, p.recovery);
    p.(warning := p.warning.Dwell(v <= LOW_WARNING_VOLTAGE, now), force := p.force.Dwell(v >= p.forceFloor, now),
       minimum := if p.minimum == 0.0 || v < p.minimum then v else p.minimum,
       healthy := p.healthy.Dwell(v >= p.recovery, now), latch := latch,
       display := Shown(p.display, latch.held, latch.held != p.latch.held, now, v, p.cutoff, p.recovery))
  }

  lemma SampledInHalves(p: Policy, now: u32, voltage: Float, ok: bool, limit: Float)
    ensures
      var received := Received(p, now, voltage, ok, limit);
      Sampled(p, now, voltage, ok, limit) ==
      if Usable(voltage, ok) then Accepted(received, now, voltage.r) else Faulted(received)
  {
    hide LatchStep, Shown, Cutoff, RecoveryVoltage, ForceFloor;
  }

  function TakeSnapshot(p: Policy, now: u32): Snapshot {
    var age: u32 := if p.sampled then Since(now, p.sampleAt) else WRAP - 1;
    var current := p.valid && age <= MAX_SAMPLE_GAP_MS;
    var state := if p.sampled && !current then SensorFault else p.display.state;
    var admitted := !p.latch.held && (!p.admissionKnown ||
                                      (p.admissionVoltage > p.cutoff && p.admissionVoltage <= MAX_VOLTAGE));
    var interval: u32 := if p.latch.held then 300000 else if !current then 30000
                         else if state == Saving then 120000
                         else if state == Warning then 60000 else 30000;
    var warned: u32 :=
      if current && p.warning.on && p.voltage.Le(Fin(LOW_WARNING_VOLTAGE))
      then if Since(now, p.warning.at) < LOW_WARNING_MS then Since(now, p.warning.at) else LOW_WARNING_MS
      else 0;
    var elapsed: u32 := if p.latch.recovery.on then Since(now, p.latch.recovery.at) else 0;
    Snapshot(state, current, p.latch.held, admitted,
             current && !p.latch.held && p.healthy.Reached(now, READY_MS),
             p.voltage, p.minimum, p.recovery,
             if p.latch.held && elapsed < RECOVERY_MS then RECOVERY_MS - elapsed else 0,
             p.latch.releases, age, interval,
             current && p.force.Reached(now, READY_MS), p.forceFloor,
             current && p.warning.on && warned >= LOW_WARNING_MS, warned)
  }

  /** What every policy that has only seen `Restored` and `Sampled` satisfies. */
  predicate WellFormed(p: Policy) {
    && (p.latch.recovery.on ==> p.latch.held)
    && (p.valid ==> p.sampled && p.voltage.Fin? && 0.0 < p.voltage.r <= MAX_VOLTAGE && p.display.state != SensorFault)
    && (p.warning.on ==> p.valid && p.voltage.r <= LOW_WARNING_VOLTAGE)
    && p.recovery >= p.cutoff + 0.7
  }

  lemma InitialWellFormed()
    ensures WellFormed(INITIAL)
  {
  }

  lemma StepsKeepWellFormed(p: Policy, now: u32, voltage: Float, ok: bool, limit: Float)
    requires WellFormed(p)
    ensures WellFormed(Restored(p)) && WellFormed(Sampled(p, now, voltage, ok, limit))
  {
  }
}
