/** When a round of the scheduler starts an automatic run, and the run that leaves no mark. */
module OtaZero {
  import opened Numeric
  import opened Gpio
  import opened Lid
  import opened LidInvariant
  import opened LidRecord
  import opened LidDirections
  import opened LidSteps
  import opened OtaSteps
  import opened OtaQueue
  import opened OtaProcess
  import opened OtaSafety
  import opened OtaEvidence
  import opened OtaCourse
  import opened OtaTheorems

  /** The power allows an update, nothing is asked for, and the last look at the schedule
      is half a minute old. */
  predicate Due(u: Updater, r: Round) {
    var b := Interleave(u, r.before);
    && r.connected && CanStartOta(u.lid, false, false) && !b.queue.pending && !b.queue.busy
    && Since(b.lid.Now(), b.lastScheduleCheck) >= 30000
  }

  /** A due round runs exactly when no run has left a mark, or the hour has come on a day
      other than the marked one. The run marks the counter value and the day, if known. */
  lemma DueRunsExactly(u: Updater, r: Round)
    requires Sane(u) && !u.rebooting && Due(u, r)
    ensures
      var u', now := Serve(u, r), Interleave(u, r.before).lid.Now();
      var runs := u.lastRunTime == 0 || (r.time.Some? && r.time.value.hour >= r.otaHour && u.lastRunDay != r.time.value.Day());
      && u'.automaticRuns == u.automaticRuns + (if runs then 1 else 0)
      && u'.lastRunTime == (if runs then now else u.lastRunTime)
      && u'.lastRunDay == (if runs && r.time.Some? then r.time.value.Day() else u.lastRunDay)
      && u'.lastScheduleCheck == now
  {
    hide Inv, Remembered, SafeFlash, Interleave, CanStartOta, RunAutomatic;
    SaneGap(u, r.before);
    var b := Interleave(u, r.before);
    var v := b.(lastScheduleCheck := b.lid.Now());
    var claim := Claim(v.queue);
    AutomaticSane(v.(queue := claim.queue), r.time, b.lid.Now(), r);
    AutomaticChecks(v.(queue := claim.queue), r.time, b.lid.Now(), r);
  }

  lemma AutomaticChecks(u: Updater, time: Option<LocalTime>, now: u32, r: Round)
    requires Sane(u.(queue := u.queue.(busy := false))) && !u.rebooting && u.queue.busy && !u.queue.pending
    ensures RunAutomatic(u, time, now, r).lastScheduleCheck == u.lastScheduleCheck
  {
    hide Inv, Remembered, SafeFlash, Interleave, Process;
    var noted := u.(lastRunTime := now, lastRunDay := if time.None? then u.lastRunDay else time.value.Day(),
                    automaticRuns := u.automaticRuns + 1);
    BusySane(noted, r.after);
    TakenEnds(Interleave(noted, r.after), false, false, r.script);
  }

  /** A queued request is taken by a round exactly when it is a special one or the battery
      lets a plain update start. A special one that is late by then is refused; any other has
      its process. */
  lemma RequestRunsExactly(u: Updater, r: Round)
    requires Sane(u) && !u.rebooting && InStep(u.lid) && r.connected && Interleave(u, r.before).queue.pending
    ensures
      var b := Interleave(u, r.before);
      var special := b.queue.recovery || b.queue.maintenance;
      var taken := b.(queue := b.queue.(pending := false, recovery := false, maintenance := false, busy := true));
      var a := taken.(lid := Meanwhile(b.lid, r.after));
      Serve(u, r) ==
      if !special && !MayStart(u.lid, false, false) then b
      else if special && !Timely(a.lid, b.acceptedAt, b.queue.ttl) then Refuse(a)
      else Process(a, b.queue.recovery, b.queue.maintenance, r.script)
  {
    hide Inv, Remembered, SafeFlash, Interleave, CanStartOta, MayStart, Process, Meanwhile, InStep;
    StartsExactly(u.lid, false, false);
    SaneGap(u, r.before);
    var b := Interleave(u, r.before);
    var taken := b.(queue := b.queue.(pending := false, recovery := false, maintenance := false, busy := true));
    BusyIsMeanwhile(taken, r.after);
    BusySane(taken, r.after);
    if b.queue.recovery || b.queue.maintenance { TakenIsTimely(b, taken.(lid := Meanwhile(b.lid, r.after))); }
  }

  lemma TakenIsTimely(b: Updater, a: Updater)
    requires Dated(b) && b.lid.clock <= a.lid.clock && a.acceptedAt == b.acceptedAt
    requires a.queue.requestAt == b.queue.requestAt && a.queue.ttl == b.queue.ttl
    ensures a.Fresh() <==> Timely(a.lid, b.acceptedAt, b.queue.ttl)
  {
    SinceIsElapsed(a.lid.clock, a.acceptedAt);
  }

  // ---- A run at counter value zero ----

  /** A round at noon of that day whose process does not get its manifest. */
  function Noon(day: int): Round {
    Round(true, [], [], Some(LocalTime(12, 2026, day)), 3,
          Script([], [], NotFetched, [], [], [], [], [], [], [], FlashFailed))
  }

  lemma NoonLeavesLid(u: Updater, day: int)
    requires CanStartOta(u.lid, false, false) && !u.queue.pending && !u.queue.busy && !u.rebooting
    ensures
      var u' := Serve(u, Noon(day));
      u'.lid == u.lid && u'.queue == u.queue && !u'.rebooting
  {
    hide CanStartOta;
  }

  predicate Sunrise(u: Updater, t0: nat) {
    Sane(u) && Sunny(u.lid, t0) && !u.queue.pending && !u.queue.busy && !u.rebooting
  }

  /** A minute, and then a round at noon of that day. */
  lemma MinuteThenNoon(u: Updater, t0: nat, day: int)
    requires Sunrise(u, t0) && u.lid.clock + 60000 - t0 < WRAP
    requires Since(Wrap(u.lid.clock + 60000), u.lastScheduleCheck) >= 30000
    ensures
      var u' := Serve(Interleave(u, Seconds(60)), Noon(day));
      var runs := u.lastRunTime == 0 || u.lastRunDay != 2026 * 400 + day;
      && Sunrise(u', t0) && u'.lid.clock == u.lid.clock + 60000
      && u'.automaticRuns == u.automaticRuns + (if runs then 1 else 0)
      && u'.lastRunTime == (if runs then Wrap(u'.lid.clock) else u.lastRunTime)
      && u'.lastRunDay == (if runs then 2026 * 400 + day else u.lastRunDay)
      && u'.lastScheduleCheck == Wrap(u'.lid.clock)
  {
    hide Sane, Sunny, Serve, CanStartOta, Interleave;
    SunnySeconds(u, t0, 60);
    SaneGap(u, Seconds(60));
    var v := Interleave(u, Seconds(60));
    SunnyLater(u.lid, t0);
    SunnyIsReady(v.lid, t0);
    assert Interleave(v, []) == v by { NoGap(v); }
    DueRunsExactly(v, Noon(day));
    NoonLeavesLid(v, day);
    ServeSane(v, Noon(day));
  }

  lemma NoGap(u: Updater)
    ensures Interleave(u, []) == u
  {
  }

  lemma SunnyLater(l: Lid, t0: nat)
    requires Sunny(l, t0)
    ensures t0 <= l.clock
  {
    hide Inv, Remembered;
  }

  /** A device booted 3 minutes before, with rounds at noon of one day, and twice at noon
      of the next. It makes one automatic run a day, unless the counter shows zero at the
      second: that run leaves no mark, and the second day sees another. */
  lemma ZeroRunRepeats(boot: nat)
    requires Wrap(boot + 60000) >= 30000
    ensures
      var u := AtBoot(Boot(Nvs(false, false), boot, CONFIG, Calm().reading));
      var first := Serve(Interleave(u, Seconds(60)), Noon(1));
      var second := Serve(Interleave(first, Seconds(60)), Noon(2));
      var third := Serve(Interleave(second, Seconds(60)), Noon(2));
      && first.automaticRuns == 1 && second.automaticRuns == 2
      && third.automaticRuns == if Wrap(boot + 120000) == 0 then 3 else 2
  {
    hide Boot, Serve, Interleave, Sunrise, Wrap, Since;
    var l := Boot(Nvs(false, false), boot, CONFIG, Calm().reading);
    var u := AtBoot(l);
    FirstSunrise(boot);
    SinceZero(boot + 60000);
    MinuteThenNoon(u, boot, 1);
    var first := Serve(Interleave(u, Seconds(60)), Noon(1));
    Elapsed(boot + 60000, 60000);
    MinuteThenNoon(first, boot, 2);
    var second := Serve(Interleave(first, Seconds(60)), Noon(2));
    Elapsed(boot + 120000, 60000);
    MinuteThenNoon(second, boot, 2);
  }

  lemma SinceZero(at: nat)
    ensures Since(Wrap(at), 0) == Wrap(at)
  {
  }

  lemma FirstSunrise(boot: nat)
    ensures
      var u := AtBoot(Boot(Nvs(false, false), boot, CONFIG, Calm().reading));
      && Sunrise(u, boot) && u.lid.clock == boot && u.lastScheduleCheck == 0 && u.lastRunTime == 0 && u.lastRunDay == -1
      && u.automaticRuns == 0
  {
    hide Sunny, Sane, Boot;
    SunnyBoot(boot);
    BootPlain(Nvs(false, false), boot, CONFIG, Calm().reading);
    BootKeeps(Nvs(false, false), boot, CONFIG, Calm().reading);
    BootRecorded(Nvs(false, false), boot, CONFIG, Calm().reading);
    StartsSane(Boot(Nvs(false, false), boot, CONFIG, Calm().reading));
    BootClock(boot);
  }

  lemma BootClock(boot: nat)
    ensures Boot(Nvs(false, false), boot, CONFIG, Calm().reading).clock == boot
  {
    hide Bus.Do, NextPolicy;
  }
}
