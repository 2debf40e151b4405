/** Three runs from boot in which an update reaches the updater: a scheduled one, a forced
    one, and a recovery with the sensor failing. */
module OtaRuns {
  import opened Numeric
  import opened BatteryPolicy
  import opened BatteryHistory
  import opened Gpio
  import opened Lid
  import opened LidInvariant
  import opened LidRecord
  import opened LidCharging
  import opened LidDirections
  import opened OtaQueue
  import opened OtaProcess
  import opened OtaEvidence
  import opened OtaSafety
  import opened OtaCourse
  import opened OtaSteps

  /** Nothing else happens while the process runs. */
  function Undisturbed(manifest: Manifest, flash: Flash): Script {
    Script([], [], manifest, [], [], [], [], [], [], [], flash)
  }

  /** The reserved controller half a second later. */
  function Later(l: Lid, recovery: bool, maintenance: bool): Lid {
    Perform(BeginOta(l, recovery, maintenance), Advance(500))
  }

  lemma BeginSeen(l: Lid, recovery: bool, maintenance: bool)
    ensures
      var b := BeginOta(l, recovery, maintenance);
      && SeenIn(b.bus.log) == SeenIn(l.bus.log) && b.clock == l.clock && b.policy == l.policy
      && b.motorCurrent == l.motorCurrent && b.config == l.config && b.lastVerified == l.lastVerified
      && b.state == OtaUpdating && b.charge == l.charge && b.drive.isolated
      && (recovery || maintenance ==> b.ota == Reservation(recovery, maintenance, true, l.Now()))
      && (!recovery && !maintenance ==> !b.ota.recovery && !b.ota.maintenance)
  {
    OffSeen(l);
  }

  /** The cuts of a process that nothing disturbs, with the motor still. */
  lemma QuietCuts(l: Lid, recovery: bool, maintenance: bool, manifest: Manifest, flash: Flash)
    requires l.motorCurrent.Fin? ==> l.motorCurrent.r <= 50.0
    requires l.motorCurrent != PosInf
    ensures
      var c := CutsOf(l, recovery, maintenance, Undisturbed(manifest, flash));
      var special := recovery || maintenance;
      var b, w := BeginOta(l, recovery, maintenance), Later(l, recovery, maintenance);
      && c.admitted == l && c.fetched == c.prepared == (if special then b else l)
      && c.waited == c.settled == c.connected == c.called == c.returned == w && c.reservedAt == l.clock
  {
    hide BeginOta;
    BeginSeen(l, recovery, maintenance);
    var b := BeginOta(l, recovery, maintenance);
    assert Settling(b, b.Now(), []) == b;
  }

  /** Such a process calls the updater half a second after the reservation, if the controller
      admits it and lets it go on. */
  lemma QuietProcess(u: Updater, recovery: bool, maintenance: bool, manifest: Manifest, flash: Flash)
    requires Working(u, false) && Wanted(manifest, maintenance) && InStep(u.lid) && InStep(Later(u.lid, recovery, maintenance))
    requires u.lid.motorCurrent.Fin? ==> u.lid.motorCurrent.r <= 50.0
    requires u.lid.motorCurrent != PosInf && CanStartOta(u.lid, recovery, maintenance)
    requires CanContinueOta(BeginOta(u.lid, recovery, maintenance)) && CanContinueOta(Later(u.lid, recovery, maintenance))
    requires recovery || maintenance ==>
               Dated(u) && u.lid.clock == u.acceptedAt && 500 < u.queue.ttl
    ensures
      var w := Later(u.lid, recovery, maintenance);
      Called(Tried(u, true), Process(u, recovery, maintenance, Undisturbed(manifest, flash)), w, w, flash)
  {
    hide Called, NotCalled, Inv, Remembered, CanStartOta, CanContinueOta, MayStart, MayGoOn, BeginOta, CutsOf, Process, TryBeginOta;
    var s := Undisturbed(manifest, flash);
    var b := BeginOta(u.lid, recovery, maintenance);
    var w := Later(u.lid, recovery, maintenance);
    QuietCuts(u.lid, recovery, maintenance, manifest, flash);
    BeginSeen(u.lid, recovery, maintenance);
    BegunIs(u.lid, recovery, maintenance);
    OtaSafety.Beginning(u.lid, recovery, maintenance);
    GoodKeeps(b, Advance(500));
    StartsExactly(u.lid, recovery, maintenance);
    ContinuesExactly(b, u.lid.clock);
    ContinuesExactly(w, u.lid.clock);
    ProcessCallsExactly(u, recovery, maintenance, s);
  }

  // ---- What the controller says ----

  lemma StaysInStep(l: Lid, recovery: bool, maintenance: bool)
    requires BatteryHistory.Timed(BatteryOf(l)) && LastAt(BatteryOf(l)) == Some(l.clock)
    ensures InStep(l) && InStep(Later(l, recovery, maintenance))
  {
    hide BatteryHistory.Timed, BeginOta, SeenIn;
    BeginSeen(l, recovery, maintenance);
  }

  lemma IdleIsStill(l: Lid)
    requires Good(l) && l.state == Idle
    ensures !l.charge.active
  {
  }

  lemma SunnyStarts(l: Lid, t0: nat, maintenance: bool)
    requires Sunny(l, t0) && 30000 <= l.clock - t0 < WRAP && (maintenance ==> l.Now() >= 120000)
    ensures CanStartOta(l, false, maintenance)
  {
    hide Inv, Remembered, BatteryHistory.Timed;
    IdleIsStill(l);
    SinceIsElapsed(l.clock, t0);
    GoodPolicy(l);
  }

  lemma GoodPolicy(l: Lid)
    requires Good(l)
    ensures l.policy.sampled && l.policy.sampleAt == l.lastPowerReading
  {
  }

  /** The controller reserved from such a lid, when it is asked `ms` later. */
  lemma AskedLater(l: Lid, b: Lid, t0: nat, ms: nat)
    requires l.clock <= b.clock == l.clock + ms && ms <= 500 && 30000 <= l.clock - t0 && l.clock - t0 + 500 < WRAP
    requires t0 <= l.clock && b.policy == l.policy && l.policy.sampled && l.policy.sampleAt == l.Now() && l.policy.valid
    requires !l.policy.latch.held && l.policy.healthy == l.policy.force == Timer(true, Wrap(t0))
    ensures b.Power().otaReady && b.Power().forceOtaReady
  {
    SinceIsElapsed(b.clock, t0);
    SinceIsElapsed(b.clock, l.clock);
  }

  lemma SunnyGoesOn(l: Lid, t0: nat, maintenance: bool)
    requires Sunny(l, t0) && 30000 <= l.clock - t0 && l.clock - t0 + 500 < WRAP
    ensures CanContinueOta(BeginOta(l, false, maintenance)) && CanContinueOta(Later(l, false, maintenance))
  {
    hide Inv, Remembered, BatteryHistory.Timed, BeginOta, SeenIn, TakeSnapshot;
    IdleIsStill(l);
    GoodPolicy(l);
    BeginSeen(l, false, maintenance);
    AskedLater(l, BeginOta(l, false, maintenance), t0, 0);
    AskedLater(l, Later(l, false, maintenance), t0, 500);
    SinceIsElapsed(l.clock + 500, l.clock);
  }

  lemma CloudyRecovers(l: Lid)
    requires Cloudy(l) && l.Now() >= 120000
    ensures CanStartOta(l, true, false)
    ensures CanContinueOta(BeginOta(l, true, false)) && CanContinueOta(Later(l, true, false))
  {
    hide Inv, Remembered, BatteryHistory.Timed, BeginOta, SeenIn;
    IdleIsStill(l);
    BeginSeen(l, true, false);
    SinceIsElapsed(l.clock + 500, l.clock);
  }

  // ---- The runs ----

  function FirstBoot(): Updater {
    AtBoot(Boot(Nvs(false, false), 0, CONFIG, Calm().reading))
  }

  /** A round at noon with nothing in between. */
  function RoundWith(manifest: Manifest, flash: Flash): Round {
    Round(true, [], [], Some(LocalTime(12, 2026, 1)), 3, Undisturbed(manifest, flash))
  }

  lemma BootIsSunny()
    ensures Sunny(FirstBoot().lid, 0) && FirstBoot().lid.clock == 0
  {
    hide Boot, Sunny;
    SunnyBoot(0);
    BootStart();
  }

  lemma BootStart()
    ensures Boot(Nvs(false, false), 0, CONFIG, Calm().reading).clock == 0
  {
    hide NextPolicy, Bus.Do;
  }

  /** The updater is called once, and the device reboots into the new firmware. */
  predicate Updated(u: Updater) {
    |u.flashes| == 1 && u.rebooting && u.state == Success && SafeFlash(u.flashes[0])
  }

  lemma CalledIsUpdated(u: Updater, u': Updater, w: Lid, special: bool)
    requires Called(Tried(u, true), u', w, w, Flashed) && u.flashes == [] && Ended(u, u', special)
    ensures Updated(u')
  {
    hide SafeFlash, Inv, Remembered, LidLog.Extends;
  }

  /** The claim of a scheduled run, and its mark. */
  function ClaimedRun(u: Updater): Updater {
    u.(lastScheduleCheck := u.lid.Now(), queue := u.queue.(busy := true), lastRunTime := u.lid.Now(),
       lastRunDay := 2026 * 400 + 1, automaticRuns := u.automaticRuns + 1)
  }

  lemma ScheduledRound(u: Updater, manifest: Manifest, flash: Flash)
    requires u.queue == EMPTY && u.lastRunTime == 0 && Since(u.lid.Now(), u.lastScheduleCheck) >= 30000
    requires CanStartOta(u.lid, false, false)
    ensures Serve(u, RoundWith(manifest, flash)) == Process(ClaimedRun(u), false, false, Undisturbed(manifest, flash))
  {
    hide CanStartOta, Process, Interleave;
    StandStill(u);
    StandStill(ClaimedRun(u));
  }

  lemma ScheduledFlashes(u: Updater, t0: nat)
    requires Sunny(u.lid, t0) && 30000 <= u.lid.clock - t0 && u.lid.clock - t0 + 500 < WRAP
    requires u.queue == EMPTY && u.flashes == [] && !u.rebooting && u.watched
    ensures Updated(Process(ClaimedRun(u), false, false, Undisturbed(OtherVersion, Flashed)))
  {
    hide Sunny, CanStartOta, Process, Called, Later, SafeFlash, Updated, CanContinueOta, InStep, Inv, Remembered, BeginOta,
         Ended;
    SunnyStarts(u.lid, t0, false);
    SunnyGoesOn(u.lid, t0, false);
    SunnyFacts(u.lid, t0);
    StaysInStep(u.lid, false, false);
    var claimed, s := ClaimedRun(u), Undisturbed(OtherVersion, Flashed);
    QuietProcess(claimed, false, false, OtherVersion, Flashed);
    ProcessEnds(claimed, false, false, s);
    CalledIsUpdated(claimed, Process(claimed, false, false, s), Later(u.lid, false, false), false);
  }

  /** A minute of a good battery, and the scheduled round finds another version. */
  lemma ScheduledUpdateFlashes()
    ensures Updated(Serve(Interleave(FirstBoot(), Seconds(60)), RoundWith(OtherVersion, Flashed)))
  {
    hide FirstBoot, Sunny, CanStartOta, Process, Interleave, Updated, Serve;
    BootIsSunny();
    FreshUpdater();
    SunnySeconds(FirstBoot(), 0, 60);
    var u := Interleave(FirstBoot(), Seconds(60));
    SunnyStarts(u.lid, 0, false);
    ScheduledRound(u, OtherVersion, Flashed);
    ScheduledFlashes(u, 0);
  }

  // ---- On request ----

  /** The owner's request, at this moment. */
  function Requested(u: Updater, recovery: bool): Updater {
    Interleave(u, [AskFor(true, recovery, 60000, !recovery, true)])
  }

  /** The taken request. */
  function Taken(u: Updater): Updater {
    u.(queue := Queue(false, false, false, u.lid.Now(), 60000, true), acceptedAt := u.lid.clock, state := Checking)
  }

  lemma RequestedRound(u: Updater, recovery: bool, manifest: Manifest, flash: Flash)
    requires u.queue == EMPTY
    ensures Serve(Requested(u, recovery), RoundWith(manifest, flash)) ==
            Process(Taken(u), recovery, !recovery, Undisturbed(manifest, flash))
  {
    hide CanStartOta, Process, Perform, Interleave, Requested;
    Asking(u, recovery);
    StandStill(Requested(u, recovery));
    StandStill(Taken(u));
  }

  lemma Asking(u: Updater, recovery: bool)
    requires u.queue == EMPTY
    ensures Requested(u, recovery) ==
            u.(queue := Queue(true, recovery, !recovery, u.lid.Now(), 60000, false), acceptedAt := u.lid.clock, state := Checking)
  {
    hide Perform, Interleave;
    var gap := [AskFor(true, recovery, 60000, !recovery, true)];
    var asked := Disturbed(u, gap[0]);
    StandStill(asked);
    assert Interleave(u, gap) == asked by { OneStep(u, gap); }
  }

  lemma OneStep(u: Updater, gap: Gap)
    requires |gap| == 1
    ensures Interleave(u, gap) == Disturbed(u, gap[0])
  {
    hide Disturbed;
    assert gap[1..] == [];
  }

  lemma RequestFlashes(u: Updater, recovery: bool, manifest: Manifest)
    requires Good(u.lid) && u.lid.state == Idle && u.flashes == [] && !u.rebooting && u.watched
    requires Wanted(manifest, !recovery) && u.lid.motorCurrent.Fin? && u.lid.motorCurrent.r <= 50.0
    requires BatteryHistory.Timed(BatteryOf(u.lid)) && LastAt(BatteryOf(u.lid)) == Some(u.lid.clock)
    requires CanStartOta(u.lid, recovery, !recovery)
    requires CanContinueOta(BeginOta(u.lid, recovery, !recovery)) && CanContinueOta(Later(u.lid, recovery, !recovery))
    ensures Updated(Process(Taken(u), recovery, !recovery, Undisturbed(manifest, Flashed)))
  {
    hide CanStartOta, Process, Called, Later, SafeFlash, Updated, CanContinueOta, InStep, Inv, Remembered, BeginOta,
         Ended, BatteryHistory.Timed, SeenIn;
    StaysInStep(u.lid, recovery, !recovery);
    var taken, s := Taken(u), Undisturbed(manifest, Flashed);
    QuietProcess(taken, recovery, !recovery, manifest, Flashed);
    ProcessEnds(taken, recovery, !recovery, s);
    CalledIsUpdated(taken, Process(taken, recovery, !recovery, s), Later(u.lid, recovery, !recovery), true);
  }

  /** Two minutes of a good battery, and the owner forces the version that runs already. */
  lemma ForcedUpdateFlashes()
    ensures Updated(Serve(Requested(Interleave(FirstBoot(), Seconds(120)), false), RoundWith(SameVersion, Flashed)))
  {
    hide FirstBoot, Sunny, CanStartOta, Process, Interleave, Updated, Serve, Requested, CanContinueOta, BeginOta, Good, Later,
         BatteryHistory.Timed, SeenIn;
    BootIsSunny();
    FreshUpdater();
    SunnySeconds(FirstBoot(), 0, 120);
    var u := Interleave(FirstBoot(), Seconds(120));
    SunnyStarts(u.lid, 0, true);
    SunnyGoesOn(u.lid, 0, true);
    SunnyFacts(u.lid, 0);
    RequestedRound(u, false, SameVersion, Flashed);
    RequestFlashes(u, false, SameVersion);
  }

  /** Two minutes of a good battery, then the sensor fails, and the owner orders a recovery. */
  lemma RecoveryFlashes()
    ensures
      var waited := Interleave(FirstBoot(), Seconds(120));
      var failed := waited.(lid := Perform(Perform(waited.lid, Advance(1000)), Tick(Faulty())));
      Updated(Serve(Requested(failed, true), RoundWith(OtherVersion, Flashed)))
  {
    hide FirstBoot, Sunny, CanStartOta, Process, Interleave, Updated, Serve, Requested, CanContinueOta, BeginOta, Later,
         Perform, Inv, Remembered, BatteryHistory.Timed, SeenIn;
    BootIsSunny();
    FreshUpdater();
    SunnySeconds(FirstBoot(), 0, 120);
    var waited := Interleave(FirstBoot(), Seconds(120));
    FaultySecond(waited.lid, 0);
    var failed := waited.(lid := Perform(Perform(waited.lid, Advance(1000)), Tick(Faulty())));
    CloudyRecovers(failed.lid);
    RequestedRound(failed, true, OtherVersion, Flashed);
    RequestFlashes(failed, true, OtherVersion);
  }

  lemma FreshUpdater()
    ensures
      var u := FirstBoot();
      && u.queue == EMPTY && u.flashes == [] && !u.rebooting && u.watched && u.lastScheduleCheck == 0 && u.lastRunTime == 0
  {
    hide Boot;
  }

  lemma StandStill(u: Updater)
    ensures Interleave(u, []) == u
  {
    hide Perform;
  }

  lemma SunnyFacts(l: Lid, t0: nat)
    requires Sunny(l, t0)
    ensures Good(l) && l.state == Idle && l.motorCurrent == Fin(10.0) && !l.ota.used
    ensures BatteryHistory.Timed(BatteryOf(l)) && LastAt(BatteryOf(l)) == Some(l.clock)
  {
    hide Inv, Remembered, BatteryHistory.Timed;
  }
}
