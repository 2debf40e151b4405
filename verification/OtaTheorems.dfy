/** The update manager over a whole boot: the scheduler, the requests and the processes. */
module OtaTheorems {
  import opened Numeric
  import opened BatteryPolicy
  import opened Gpio
  import opened Lid
  import opened LidInvariant
  import opened BatteryHistory
  import opened BatteryDwell
  import opened BatteryLatch
  import opened LidRecord
  import opened OtaEvidence
  import opened LidLog
  import opened LidLifecycles
  import opened OtaQueue
  import opened OtaProcess
  import opened OtaSafety

  function SpecialFlashes(fs: seq<FlashCall>): nat {
    if fs == [] then 0 else SpecialFlashes(fs[..|fs| - 1]) + if fs[|fs| - 1].special then 1 else 0
  }

  /** Between two rounds of the scheduler. After a reboot only the record matters. */
  predicate Sane(u: Updater) {
    && Good(u.lid)
    && (!u.rebooting ==> !u.queue.busy && u.lid.state != OtaUpdating && u.watched)
    && (u.queue.Special() ==> Dated(u))
    && (forall i :: 0 <= i < |u.flashes| ==> SafeFlash(u.flashes[i]))
    && SpecialFlashes(u.flashes) <= if u.lid.ota.used then 1 else 0
  }

  lemma StartsSane(l: Lid)
    requires Good(l) && l.state != OtaUpdating
    ensures Sane(AtBoot(l))
  {
    hide Inv, Remembered;
  }

  lemma SaneMeans(u: Updater)
    requires Sane(u)
    ensures !u.rebooting ==> !u.queue.busy && u.lid.state != OtaUpdating && u.watched
  {
  }

  lemma SaneStep(u: Updater, other: Other)
    requires Sane(u) && !u.rebooting
    ensures
      var u' := Disturbed(u, other);
      && Sane(u') && !u'.rebooting
      && u' == u.(lid := u'.lid, queue := u'.queue, acceptedAt := u'.acceptedAt, state := u'.state)
  {
    hide Inv, Remembered, Perform, Prefix, SafeFlash, Foreign;
    match other
    case Operate(op) =>
      GoodKeeps(u.lid, op);
      PerformExtends(u.lid, op);
      ForeignKeepsReservation(u.lid, op);
    case AskFor(_, _, _, _, _) =>
  }

  lemma SaneGap(u: Updater, gap: Gap)
    requires Sane(u) && !u.rebooting
    ensures
      var u' := Interleave(u, gap);
      && Sane(u') && !u'.rebooting
      && u' == u.(lid := u'.lid, queue := u'.queue, acceptedAt := u'.acceptedAt, state := u'.state)
    decreases |gap|
  {
    hide Sane, Disturbed;
    if gap != [] {
      SaneStep(u, gap[0]);
      SaneGap(Disturbed(u, gap[0]), gap[1..]);
    }
  }

  /** From a taken request or a claimed run to the end of its process. */
  lemma TakenEnds(u: Updater, recovery: bool, maintenance: bool, s: Script)
    requires Sane(u.(queue := u.queue.(busy := false))) && !u.rebooting && u.queue.busy && !u.queue.pending
    requires recovery || maintenance ==> Dated(u)
    ensures
      var u' := Process(u, recovery, maintenance, s);
      Sane(u') && Ended(u, u', recovery || maintenance)
  {
    hide Inv, Remembered, Extends, SafeFlash, Dated, Process;
    ProcessEnds(u, recovery, maintenance, s);
    var u' := Process(u, recovery, maintenance, s);
    if |u'.flashes| > |u.flashes| { assert u'.flashes[..|u'.flashes| - 1] == u.flashes; }
    forall i | 0 <= i < |u'.flashes| ensures SafeFlash(u'.flashes[i]) {
      if i < |u.flashes| { assert u'.flashes[i] == u'.flashes[..|u.flashes|][i] == u.flashes[i]; }
    }
  }

  lemma BusySane(u: Updater, gap: Gap)
    requires Sane(u.(queue := u.queue.(busy := false))) && !u.rebooting && u.queue.busy && !u.queue.pending
    ensures
      var u' := Interleave(u, gap);
      && Sane(u'.(queue := u'.queue.(busy := false))) && u' == u.(lid := u'.lid)
      && u.lid.clock <= u'.lid.clock
  {
    hide Inv, Remembered, Prefix, SafeFlash, Interleave, Quiet;
    BusyGap(u, gap);
  }

  lemma RequestSane(u: Updater, recovery: bool, maintenance: bool, r: Round)
    requires Sane(u.(queue := u.queue.(busy := false))) && !u.rebooting && u.queue.busy && !u.queue.pending
    requires recovery || maintenance ==> Dated(u)
    ensures
      var u' := ServeRequest(u, recovery, maintenance, r);
      && Sane(u') && u'.automaticRuns == u.automaticRuns
      && u'.lastRunDay == u.lastRunDay && u'.lastRunTime == u.lastRunTime
  {
    hide Inv, Remembered, SafeFlash, Interleave, Process;
    BusySane(u, r.after);
    var a := Interleave(u, r.after);
    TakenEnds(a, recovery, maintenance, r.script);
  }

  lemma AutomaticSane(u: Updater, time: Option<LocalTime>, now: u32, r: Round)
    requires Sane(u.(queue := u.queue.(busy := false))) && !u.rebooting && u.queue.busy && !u.queue.pending
    ensures
      var u' := RunAutomatic(u, time, now, r);
      && Sane(u') && u'.automaticRuns == u.automaticRuns + 1 && u'.lastRunTime == now
      && u'.lastRunDay == if time.None? then u.lastRunDay else time.value.Day()
  {
    hide Inv, Remembered, SafeFlash, Interleave, Process, Ended;
    var noted := u.(lastRunTime := now, lastRunDay := if time.None? then u.lastRunDay else time.value.Day(),
                    automaticRuns := u.automaticRuns + 1);
    BusySane(noted, r.after);
    TakenEnds(Interleave(noted, r.after), false, false, r.script);
    EndedFrame(Interleave(noted, r.after), Process(Interleave(noted, r.after), false, false, r.script), false);
  }

  lemma EndedFrame(u: Updater, u': Updater, special: bool)
    requires Ended(u, u', special)
    ensures u'.automaticRuns == u.automaticRuns && u'.lastRunDay == u.lastRunDay && u'.lastRunTime == u.lastRunTime
  {
  }

  lemma ServeSane(u: Updater, r: Round)
    requires Sane(u) && !u.rebooting
    ensures Sane(Serve(u, r))
  {
    hide Inv, Remembered, SafeFlash, Interleave, CanStartOta, ServeRequest, RunAutomatic;
    if r.connected {
      SaneGap(u, r.before);
      var b := Interleave(u, r.before);
      var take := Take(b.queue, CanStartOta(u.lid, false, false));
      if take.ok {
        RequestSane(b.(queue := take.queue), b.queue.recovery, b.queue.maintenance, r);
      } else {
        ScheduleSane(b, r);
      }
    }
  }

  lemma ScheduleSane(u: Updater, r: Round)
    requires Sane(u) && !u.rebooting
    ensures Sane(Schedule(u, r))
  {
    hide Inv, Remembered, SafeFlash, RunAutomatic;
    var now := u.lid.Now();
    var v := u.(lastScheduleCheck := now);
    var claim := Claim(v.queue);
    if claim.ok { AutomaticSane(v.(queue := claim.queue), r.time, now, r); }
  }

  lemma {:induction false} AllSane(u: Updater, rounds: seq<(Gap, Round)>)
    requires Sane(u)
    ensures Sane(ServeAll(u, rounds))
    decreases |rounds|
  {
    hide Sane, Serve;
    if rounds != [] && !u.rebooting {
      SaneGap(u, rounds[0].0);
      ServeSane(Interleave(u, rounds[0].0), rounds[0].1);
      AllSane(Serve(Interleave(u, rounds[0].0), rounds[0].1), rounds[1..]);
    }
  }

  /** What the battery had shown at the last check before a flash call, in real time, if its
      samples lie less than one turn of the counter apart. */
  ghost predicate WellPowered(f: FlashCall) {
    var l, h, now := f.checked, BatteryOf(f.checked), f.checked.clock;
    InStep(l) ==>
      if l.ota.maintenance then
        HeldFor(h, Forced, READY_MS, now) && Still(l) && Counted(now - f.reservedAt) <= 120000
      else if l.ota.recovery then
        Recent(h, now) && NothingLow(l) && Counted(now - f.reservedAt) <= 120000
      else !Held(h) && HeldFor(h, Rising, READY_MS, now)
  }

  lemma SafeIsPowered(f: FlashCall)
    requires SafeFlash(f)
    ensures WellPowered(f)
  {
    hide Timed, HeldFor, Ready, Held, Quiet, Extends, Recent, Still, NothingLow;
    if InStep(f.checked) {
      ReadyMeans(BatteryOf(f.checked), Forced, f.checked.clock);
      ReadyMeans(BatteryOf(f.checked), Rising, f.checked.clock);
    }
  }

  /** Over one boot, whatever the tasks, the network and the battery do: every flash call
      is safe and powered, at most one serves a recovery or forced request, and between rounds, unless
      the device is rebooting, no process is in progress, the controller is not in the
      update state and the task is watched. */
  lemma AnyService(nvs: Nvs, clock: nat, config: Config, first: Reading, rounds: seq<(Gap, Round)>)
    ensures
      var u := ServeAll(AtBoot(Boot(nvs, clock, config, first)), rounds);
      && (forall i :: 0 <= i < |u.flashes| ==> SafeFlash(u.flashes[i]) && WellPowered(u.flashes[i]))
      && SpecialFlashes(u.flashes) <= 1
      && (!u.rebooting ==> !u.queue.busy && u.lid.state != OtaUpdating && u.watched)
  {
    hide Inv, Remembered, SafeFlash, ServeAll, WellPowered;
    BootKeeps(nvs, clock, config, first);
    BootRecorded(nvs, clock, config, first);
    BootPlain(nvs, clock, config, first);
    AllSane(AtBoot(Boot(nvs, clock, config, first)), rounds);
    var u := ServeAll(AtBoot(Boot(nvs, clock, config, first)), rounds);
    forall i | 0 <= i < |u.flashes| ensures WellPowered(u.flashes[i]) { SafeIsPowered(u.flashes[i]); }
  }

  lemma BootPlain(nvs: Nvs, clock: nat, config: Config, first: Reading)
    ensures Boot(nvs, clock, config, first).state != OtaUpdating
  {
    hide Sampled;
  }

  /** No moment between the power check before a flash call and its return sees a relay
      pin driven, and a special call starts inside the accepted two minutes, counted
      modulo 2^32. */
  lemma FlashIsIsolated(f: FlashCall, moment: Log)
    requires SafeFlash(f) && Prefix(f.checked.bus.log, moment) && Prefix(moment, f.end.bus.log)
    ensures AllInput(Pinned(moment))
    ensures f.special && f.start.clock - f.acceptedAt < WRAP ==> f.start.clock - f.acceptedAt < f.ttl <= 120000
  {
    hide CanContinueOta;
    QuietMoments(f.checked.bus.log, moment, f.end.bus.log);
  }

  // ---- One automatic run a day ----

  /** Rounds that cannot tell the day, or find it to be `day`. */
  predicate Within(rounds: seq<(Gap, Round)>, day: int) {
    forall i :: 0 <= i < |rounds| ==> rounds[i].1.time.None? || rounds[i].1.time.value.Day() == day
  }

  lemma ServeSameDay(u: Updater, r: Round)
    requires Sane(u) && !u.rebooting && u.lastRunTime != 0
    requires r.time.None? || r.time.value.Day() == u.lastRunDay
    ensures
      var u' := Serve(u, r);
      && u'.automaticRuns == u.automaticRuns
      && u'.lastRunTime == u.lastRunTime && u'.lastRunDay == u.lastRunDay
  {
    hide Inv, Remembered, SafeFlash, Interleave, CanStartOta, ServeRequest, RunAutomatic;
    if r.connected {
      SaneGap(u, r.before);
      var b := Interleave(u, r.before);
      var take := Take(b.queue, CanStartOta(u.lid, false, false));
      if take.ok { RequestSane(b.(queue := take.queue), b.queue.recovery, b.queue.maintenance, r); }
    }
  }

  /** Once an automatic run has left its mark and noted its day, that day sees no second
      one. The mark is the counter value, so a run at value zero leaves none. */
  lemma {:induction false} OneRunADay(u: Updater, rounds: seq<(Gap, Round)>)
    requires Sane(u) && u.lastRunTime != 0 && Within(rounds, u.lastRunDay)
    ensures ServeAll(u, rounds).automaticRuns == u.automaticRuns
    decreases |rounds|
  {
    hide Sane, Serve;
    if rounds != [] && !u.rebooting {
      var (gap, r) := rounds[0];
      SaneGap(u, gap);
      ServeSane(Interleave(u, gap), r);
      ServeSameDay(Interleave(u, gap), r);
      OneRunADay(Serve(Interleave(u, gap), r), rounds[1..]);
    }
  }
}
