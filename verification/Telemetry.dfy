/** The power fields of a telemetry frame, and the agreement between the firmware that
    writes them and the observer that reads them. */
module Telemetry {
  import opened Numeric
  import opened BatteryPolicy
  import opened BatteryHistory
  import opened BatteryDwell
  import M = PowerMonitor

  function CodeOf(s: BatteryState): nat {
    match s
    case Normal => 0
    case Warning => 1
    case Saving => 2
    case Protected => 3
    case Recovering => 4
    case SensorFault => 5
    case Unknown => 6
  }

  function Number(n: int): Option<Float> {
    Some(Fin(n as real))
  }

  /** The record of a frame received at `at`. A null voltage leaves no field. */
  function Frame(s: Snapshot, at: real): M.Sample {
    M.Sample(
      Fin(at), Number(1), Number(s.telemetryIntervalMs / 1000), Number(CodeOf(s.state)),
      Number(s.sampleAgeMs), Number(if s.valid then 1 else 0), if s.valid then Some(s.voltage) else None,
      Number(1), Number(if s.lowWarning then 1 else 0), Number(s.lowWarningElapsedMs / 1000),
      Some(Fin(LOW_WARNING_VOLTAGE)), Number(LOW_WARNING_MS / 1000))
  }

  function Named(s: BatteryState): M.Status {
    match s
    case Normal => M.Normal
    case Warning => M.PowerCaution
    case Saving => M.EnergySaving
    case Protected => M.BatteryProtected
    case Recovering => M.RecoveryWait
    case SensorFault => M.PowerSensorFault
    case Unknown => M.Initializing
  }

  predicate InTime(s: Snapshot, at: real, now: real) {
    -5.0 <= now - at <= 2.0 * (s.telemetryIntervalMs / 1000) as real + 30.0
  }

  /** A snapshot the policy can take: what the frame says follows from it. */
  lemma SnapshotIsConsistent(p: Policy, now: u32)
    requires WellFormed(p)
    ensures
      var s := TakeSnapshot(p, now);
      && s.telemetryIntervalMs in {30000, 60000, 120000, 300000}
      && s.lowWarningElapsedMs <= LOW_WARNING_MS
      && (s.lowWarning <==> s.lowWarningElapsedMs == LOW_WARNING_MS)
      && (s.valid ==> s.voltage.Fin? && 0.0 < s.voltage.r <= MAX_VOLTAGE && s.sampleAgeMs <= 2000
                      && s.state != SensorFault)
      && (s.lowWarningElapsedMs > 0 ==> s.valid && s.voltage.r <= LOW_WARNING_VOLTAGE)
  {
  }

  lemma FrameIsConsistent(p: Policy, now: u32, at: real)
    requires WellFormed(p) && TakeSnapshot(p, now).valid
    ensures
      var s := TakeSnapshot(p, now);
      M.ConsistentWarning(Frame(s, at), s.voltage.r) && M.GoodReading(Frame(s, at))
  {
    hide TakeSnapshot;
    SnapshotIsConsistent(p, now);
    var s := TakeSnapshot(p, now);
    var seconds := s.lowWarningElapsedMs / 1000;
    assert (seconds as real).Floor == seconds;
    assert s.lowWarningElapsedMs < LOW_WARNING_MS ==> seconds < 300;
  }

  lemma CodeIsKnown(s: BatteryState)
    ensures M.StateOf(Number(CodeOf(s))) == Some(Named(s))
  {
  }

  /** Whatever the battery has gone through and whenever the frame is built: an observer
      that judges it in time neither rejects it nor misses its warning policy, and says
      low battery exactly when the firmware does. Later the box is offline to it, and a frame
      from the future is invalid. */
  lemma Agreement(h: History, clock: u32, at: real, now: real)
    ensures
      var s := TakeSnapshot(Replay(h), clock);
      var o := M.Evaluate(Some(Frame(s, at)), now);
      if now - at < -5.0 then o == M.Bare(M.SourceInvalid)
      else if !InTime(s, at, now) then o == M.Bare(M.Offline)
      else
      && o.status !in {M.SourceInvalid, M.WarningPolicyUnavailable, M.Offline, M.LegacyFirmware}
      && (o.status == M.LowBattery <==> s.lowWarning)
      && (o.warningActive == Some(true) <==> s.lowWarning)
      && o.status == (if !s.valid then M.PowerSensorFault else if s.lowWarning then M.LowBattery else Named(s.state))
      && o.voltage == (if s.valid then Some(s.voltage.r) else None)
  {
    hide TakeSnapshot, Replay, WellFormed, M.ConsistentWarning, M.GoodReading, M.StateOf;
    ReplayWellFormed(h);
    var p := Replay(h);
    var s := TakeSnapshot(p, clock);
    SnapshotIsConsistent(p, clock);
    CodeIsKnown(s.state);
    if s.valid { FrameIsConsistent(p, clock, at); } else { InvalidIsFault(s, at); }
  }

  lemma InvalidIsFault(s: Snapshot, at: real)
    requires !s.valid
    ensures !M.GoodReading(Frame(s, at))
  {
  }

  /** From the battery to the owner: a low battery is told only after five minutes of
      usable readings at or below 11.0 V without a gap, and always then, as long as
      those minutes are less than 49.7 days. */
  lemma OwnerWarningMeaning(h: History, clock: nat, at: real, now: real)
    requires Timed(h) && AskedAt(h, clock) && InTime(TakeSnapshot(Replay(h), Wrap(clock)), at, now)
    ensures
      var told := M.Told(M.Evaluate(Some(Frame(TakeSnapshot(Replay(h), Wrap(clock)), at)), now));
      var samples := SamplesOnly(h);
      && (told == M.LowBattery ==> HeldFor(samples, Warned, LOW_WARNING_MS, clock))
      && (WithinOneTurn(samples, Warned, clock) && HeldFor(samples, Warned, LOW_WARNING_MS, clock) ==>
            told == M.LowBattery)
  {
    hide TakeSnapshot, Replay, Timed, HeldFor, WithinOneTurn, SamplesOnly, Frame, M.Evaluate;
    Agreement(h, Wrap(clock), at, now);
    LowWarningMeaning(h, clock);
  }

  /** Whoever wrote the sample: low battery is said exactly of a full, consistent warning. */
  lemma LowBatteryNeedsProof(s: M.Sample, now: real)
    ensures
      var o := M.Evaluate(Some(s), now);
      && (o.status == M.LowBattery <==> o.warningActive == Some(true))
      && (o.status == M.LowBattery ==>
            && M.Equals(s.warningElapsed, 300.0) && M.Between(s.voltage, 0.0, 11.0)
            && M.Between(s.sampleAgeMs, 0.0, 2000.0) && s.at.Fin? && now - s.at.r <= 630.0)
  {
  }
}
