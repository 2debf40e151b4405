/** What the controller promises over whole runs, and over runs cut short by
    restarts at any moment. */
module LidTheorems {
  import opened Gpio
  import opened Lid
  import opened LidInvariant
  import opened LidLog
  import opened LidLifecycles

  /** Between operations, after any commands, ticks, pauses and reconfigurations. */
  lemma AnyRun(nvs: Nvs, clock: nat, config: Config, first: Reading, ops: seq<Op>)
    ensures
      var l := RunOps(Boot(nvs, clock, config, first), ops);
      var p := l.bus.pins;
      && p == Pinned(l.bus.log)
      && (l.policy.latch.held ==> l.state == BatteryLowShutdown || l.state == OtaUpdating)
      && (p.mainOn ==>
            l.InMotion() || (l.state == BatteryLowShutdown && (l.drive.lowBatteryOpening || l.charge.active)))
      && (l.drive.isolated ==> AllInput(p))
      && (l.state == OtaUpdating ==> AllInput(p))
      && l.charge.result != Cancelled
      && (p.mainOn ==> p.aHigh != p.bHigh && (l.state == BatteryLowShutdown || !p.aHigh ==> Driven(p)))
  {
    BootKeeps(nvs, clock, config, first);
    RunKeeps(Boot(nvs, clock, config, first), ops);
    var log := RunOps(Boot(nvs, clock, config, first), ops).bus.log;
    assert Prefix(log, log);
    SafeMoments(log, log);
  }

  /** At every single event since boot, inside operations too. */
  lemma AnyMoment(nvs: Nvs, clock: nat, config: Config, first: Reading, ops: seq<Op>, moment: Log)
    requires Prefix(moment, RunOps(Boot(nvs, clock, config, first), ops).bus.log)
    ensures
      var p := Pinned(moment);
      && (p.aHigh || p.bHigh) && p.strokes <= 1 && p.closes <= 1
      && (p.strokes > 0 ==> p.nvs.Durable())
      && (moment.Then? ==>
            var before := Pinned(moment.before);
            && BreakBeforeMake(before, moment.at, moment.event)
            && StrokeOnce(before, moment.at, moment.event)
            && ClosesOnEvidence(before, moment.at, moment.event)
            && DrivesOneDirection(before, moment.event))
  {
    BootKeeps(nvs, clock, config, first);
    RunKeeps(Boot(nvs, clock, config, first), ops);
    var log := RunOps(Boot(nvs, clock, config, first), ops).bus.log;
    SafeMoments(log, moment);
    SafeLogHereditary(moment, log);
  }

  // ---- Restarts ----

  /** One boot: what it starts with, what it does, and the event after which the
      power goes. That may be in the middle of an operation. */
  datatype Life = Life(clock: nat, config: Config, first: Reading, ops: seq<Op>, end: Log)

  predicate Possible(nvs: Nvs, life: Life) {
    Prefix(life.end, RunOps(Boot(nvs, life.clock, life.config, life.first), life.ops).bus.log)
  }

  /** Each boot finds what the one before had stored when it ended. */
  predicate Succession(nvs: Nvs, lives: seq<Life>)
    decreases |lives|
  {
    lives != [] ==> Possible(nvs, lives[0]) && Succession(Pinned(lives[0].end).nvs, lives[1..])
  }

  /** Protective strokes since the latch was last released, from a count carried over
      from earlier boots. A restart does not reset it. */
  function Tally(carried: nat, log: Log): nat {
    match log
    case Booted(_, _) => carried
    case Then(before, _, LatchReleased) => 0
    case Then(before, _, MainOn(Protective)) => Tally(carried, before) + 1
    case Then(before, _, _) => Tally(carried, before)
  }

  function TallyOf(carried: nat, lives: seq<Life>): nat
    decreases |lives|
  {
    if lives == [] then carried else TallyOf(Tally(carried, lives[0].end), lives[1..])
  }

  lemma {:induction false} TallyIsBelow(carried: nat, log: Log, nvs: Nvs)
    requires carried <= 1 && (carried == 1 ==> nvs.Durable())
    requires Prefix(Booted(BootTime(log), nvs), log)
    ensures Tally(carried, log) <= Pinned(log).strokes
  {
    if log.Then? { TallyIsBelow(carried, log.before, nvs); }
  }

  function BootTime(log: Log): nat {
    match log
    case Booted(at, _) => at
    case Then(before, _, _) => BootTime(before)
  }

  lemma {:induction false} SameBoot(early: Log, late: Log, boot: Log)
    requires Prefix(early, late) && boot.Booted? && Prefix(boot, late)
    ensures Prefix(boot, early) && BootTime(early) == BootTime(late)
  {
    if early != late { SameBoot(early, late.before, boot); }
  }

  /** What the last of several boots leaves in the store. */
  function StoredAfter(nvs: Nvs, lives: seq<Life>): Nvs
    decreases |lives|
  {
    if lives == [] then nvs else StoredAfter(Pinned(lives[0].end).nvs, lives[1..])
  }

  /** Over any number of restarts at any moments, one latch gets at most one protective
      stroke, and if it has had one the next boot is protected again, relays off. */
  lemma {:induction false} OneStrokePerLatch(
      nvs: Nvs, carried: nat, lives: seq<Life>, clock: nat, config: Config, r: Reading)
    requires carried <= 1 && (carried == 1 ==> nvs.Durable())
    requires Succession(nvs, lives)
    ensures TallyOf(carried, lives) <= 1
    ensures
      var next := Boot(StoredAfter(nvs, lives), clock, config, r);
      TallyOf(carried, lives) == 1 ==>
        next.state == BatteryLowShutdown && next.policy.latch.held && !next.bus.pins.mainOn
    decreases |lives|
  {
    hide Possible, Boot, Tally;
    if lives == [] {
      BootKeeps(nvs, clock, config, r);
    } else {
      var end := lives[0].end;
      LifeKeepsCount(nvs, carried, lives[0]);
      OneStrokePerLatch(Pinned(end).nvs, Tally(carried, end), lives[1..], clock, config, r);
    }
  }

  lemma LifeKeepsCount(nvs: Nvs, carried: nat, life: Life)
    requires carried <= 1 && (carried == 1 ==> nvs.Durable()) && Possible(nvs, life)
    ensures Tally(carried, life.end) <= 1
    ensures Tally(carried, life.end) == 1 ==> Pinned(life.end).nvs.Durable()
  {
    var first := Boot(nvs, life.clock, life.config, life.first);
    var last := RunOps(first, life.ops);
    AnyMoment(nvs, life.clock, life.config, life.first, life.ops, life.end);
    RunExtends(first, life.ops);
    BootExtends(nvs, life.clock, life.config, life.first);
    PrefixTrans(Booted(life.clock, nvs), first.bus.log, last.bus.log);
    SameBoot(life.end, last.bus.log, Booted(life.clock, nvs));
    SameBoot(Booted(life.clock, nvs), life.end, Booted(life.clock, nvs));
    TallyIsBelow(carried, life.end, nvs);
  }

  /** A boot into protection makes no protective stroke until the latch is released. */
  lemma RestoredBootIsStill(nvs: Nvs, clock: nat, config: Config, first: Reading, ops: seq<Op>, moment: Log)
    requires nvs.Durable()
    requires Prefix(moment, RunOps(Boot(nvs, clock, config, first), ops).bus.log)
    requires Released(moment) == 0
    ensures Stroked(moment) == 0
  {
    var b := Boot(nvs, clock, config, first);
    BootKeeps(nvs, clock, config, first);
    RunKeeps(b, ops);
    SafeLogHereditary(moment, RunOps(b, ops).bus.log);
    RunExtends(b, ops);
    BootExtends(nvs, clock, config, first);
    PrefixTrans(Booted(clock, nvs), b.bus.log, RunOps(b, ops).bus.log);
    SameBoot(moment, RunOps(b, ops).bus.log, Booted(clock, nvs));
    StillUntilReleased(moment, Booted(clock, nvs));
  }

  function Released(log: Log): nat {
    if log.Booted? then 0 else Released(log.before) + if log.event == LatchReleased then 1 else 0
  }

  function Stroked(log: Log): nat {
    if log.Booted? then 0 else Stroked(log.before) + if log.event == MainOn(Protective) then 1 else 0
  }

  lemma {:induction false} StillUntilReleased(log: Log, boot: Log)
    requires SafeLog(log) && boot.Booted? && boot.nvs.Durable() && Prefix(boot, log) && Released(log) == 0
    ensures Stroked(log) == 0 && Pinned(log).strokes == 1
  {
    if log.Then? { StillUntilReleased(log.before, boot); }
  }
}
