/** What the battery's history has to show for an update to start and to go on. */
module OtaEvidence {
  import opened Numeric
  import opened BatteryPolicy
  import opened BatteryHistory
  import opened BatteryDwell
  import opened BatteryLatch
  import opened BatterySnapshot
  import opened BatteryDisplay
  import opened Lid
  import opened LidInvariant
  import opened LidLifecycles
  import opened LidRecord

  /** Thirty seconds inside the band by now, told by the longest run and counted modulo
      2^32, in samples at most two seconds apart up to the present. */
  predicate Ready(h: History, band: Band, now: nat) {
    && h != [] && Last(h).Sample? && now - Last(h).at <= MAX_SAMPLE_GAP_MS
    && Start(h, band).Some? && Counted(now - h[Start(h, band).value].at) >= READY_MS
  }

  /** In real time: never without thirty seconds, always with them within one turn. */
  lemma ReadyMeans(h: History, band: Band, now: nat)
    requires Timed(h) && AskedAt(h, now)
    ensures Ready(h, band, now) ==> HeldFor(h, band, READY_MS, now)
    ensures WithinOneTurn(h, band, now) && HeldFor(h, band, READY_MS, now) ==> Ready(h, band, now)
  {
    hide Timed;
    if Start(h, band).Some? { RunIsInOrder(h, band, Start(h, band).value); }
    if WithinOneTurn(h, band, now) && HeldFor(h, band, READY_MS, now) {
      var i: nat :| Run(h, i, band) && now - h[i].at >= READY_MS;
      StartIsLongest(h, band, i);
      LaterInRun(h, band, Start(h, band).value, i);
      RunIsInOrder(h, band, Start(h, band).value);
      assert Run(h, Start(h, band).value, band);
    }
  }

  /** At most 50 mA either way, by the latest reading. */
  predicate Still(l: Lid) {
    var c := SeenIn(l.bus.log).current;
    c.Fin? && -50.0 <= c.r <= 50.0
  }

  /** No voltage read without doubt speaks against an update. */
  predicate NothingLow(l: Lid) {
    var v := SeenIn(l.bus.log).verified;
    v.Fin? ==> Cutoff(l.config.voltageShutdownLimit) < v.r <= MAX_VOLTAGE
  }

  /** The latest sample is at most two seconds old. */
  predicate Recent(h: History, now: nat) {
    Newest(h).Some? && now - Newest(h).value.at <= MAX_SAMPLE_GAP_MS
  }

  predicate Special(l: Lid) {
    l.ota.recovery || l.ota.maintenance
  }

  /** What lets a reserved update go on. */
  predicate MayGoOn(l: Lid, reservedAt: nat) {
    var h, now := BatteryOf(l), l.clock;
    if l.ota.maintenance then Ready(h, Forced, now) && Still(l) && Counted(now - reservedAt) <= 120000
    else if l.ota.recovery then Recent(h, now) && NothingLow(l) && Counted(now - reservedAt) <= 120000
    else !Held(h) && Ready(h, Rising, now)
  }

  /** What lets an update be reserved, apart from the kind's own terms below. */
  predicate MayStart(l: Lid, recovery: bool, maintenance: bool) {
    var h, now := BatteryOf(l), l.clock;
    if maintenance then
      !recovery && Unused(l) && (l.state == Idle || (l.state == BatteryLowShutdown && l.drive.isolated)) &&
      Ready(h, Forced, now) && Still(l)
    else if recovery then
      Unused(l) && (l.state == Idle || l.state == BatteryLowShutdown) &&
      Recent(h, now) && !Current(h, now) && NothingLow(l)
    else l.state == Idle && !Held(h) && Ready(h, Rising, now)
  }

  /** No special update has been granted in this boot, the counter is past two minutes, and
      no stroke is under way. */
  predicate Unused(l: Lid) {
    !l.ota.used && l.Now() >= 120000 && !UnderWay(l)
  }

  // ---- The controller's own tests are these ----

  lemma ReadyFlags(l: Lid)
    requires Remembered(l) && InStep(l)
    ensures l.Power().otaReady <==> !Held(BatteryOf(l)) && Ready(BatteryOf(l), Rising, l.clock)
    ensures l.Power().forceOtaReady <==> Ready(BatteryOf(l), Forced, l.clock)
  {
    hide Timed, Replay, Start, TakeSnapshot;
    var h := BatteryOf(l);
    ReplayWellFormed(h);
    ReadyTimersNeedValid(h);
    FlagsAreTimers(Replay(h), Wrap(l.clock));
    StandingTimers(h);
    DwellExact(Replay(h).healthy, h, Rising, READY_MS, l.clock);
    DwellExact(Replay(h).force, h, Forced, READY_MS, l.clock);
  }

  lemma AgeFlags(l: Lid)
    requires Remembered(l) && InStep(l)
    ensures l.Power().sampleAgeMs <= 2000 <==> Recent(BatteryOf(l), l.clock)
    ensures Recent(BatteryOf(l), l.clock) ==>
              (l.Power().state == SensorFault <==> !Current(BatteryOf(l), l.clock))
  {
    hide Timed, Replay, TakeSnapshot;
    ReadingExactly(BatteryOf(l), l.clock);
    if Current(BatteryOf(l), l.clock) { ShownFault(BatteryOf(l), l.clock); }
  }

  /** A usable latest reading does not show as a fault. */
  lemma ShownFault(h: History, now: nat)
    requires Current(h, now)
    ensures OnDisplay(h) != SensorFault
  {
    ReplayWellFormed(h);
    ReadingFields(h);
  }

  lemma CurrentFlags(l: Lid)
    requires Remembered(l)
    ensures QuietMotor(l) <==> Still(l)
    ensures NoLowEvidence(l) <==> NothingLow(l)
  {
  }

  /** An update that holds the controller goes on exactly on this evidence. */
  lemma ContinuesExactly(l: Lid, reservedAt: nat)
    requires Good(l) && l.state == OtaUpdating && InStep(l)
    requires reservedAt <= l.clock && (Special(l) ==> l.ota.at == Wrap(reservedAt))
    ensures CanContinueOta(l) <==> MayGoOn(l, reservedAt)
  {
    hide Inv, TakeSnapshot, Ready, Recent, Current, Held, Timed, QuietMotor, NoLowEvidence, Still, NothingLow, Agrees;
    ReadyFlags(l);
    AgeFlags(l);
    CurrentFlags(l);
    ActiveMeans(l);
    SinceIsElapsed(l.clock, reservedAt);
  }

  /** An update is admitted exactly on this evidence. */
  lemma StartsExactly(l: Lid, recovery: bool, maintenance: bool)
    requires Good(l) && InStep(l)
    ensures CanStartOta(l, recovery, maintenance) <==>
            MayStart(l, recovery, maintenance)
  {
    hide Inv, TakeSnapshot, Ready, Recent, Current, Held, Timed, QuietMotor, NoLowEvidence, Still, NothingLow, Agrees,
         UnderWay, Lid.MotorRunning;
    MotorIsUnderWay(l);
    ReadyFlags(l);
    AgeFlags(l);
    CurrentFlags(l);
  }
}
