/** Two runs in which a stroke is joined to the one before, so that the main relay stays on
    for longer than one stroke takes. */
module LidJoined {
  import opened Numeric
  import opened BatteryPolicy
  import opened DistanceFilter
  import opened Gpio
  import opened Lid
  import opened LidWiring
  import opened LidInvariant
  import opened LidDirections
  import opened LidSense
  import opened LidTimes
  import opened LidStroke

  // ---- Closing orders without end ----

  /** A close under way, with nothing in its way. */
  predicate Humming(l: Lid) {
    && Healthy(l) && l.state == Closing && l.bus.pins.mainOn && l.drive.lastClose && !l.drive.lastOpen
  }

  /** Three seconds, then opening and closing are ordered before the next tick. */
  const ROUND: seq<Op> := [Advance(3000), CmdOpen, CmdClose, Tick(Calm())]

  function Rounds(n: nat): seq<Op> {
    if n == 0 then [] else ROUND + Rounds(n - 1)
  }

  /** An order only turns the state around. */
  predicate Turned(l: Lid, l': Lid, next: FsmState) {
    && Healthy(l') && l'.state == next && l'.clock == l.clock && l'.bus.pins.mainOn == l.bus.pins.mainOn
    && l'.drive.lastOpen == l.drive.lastOpen && l'.drive.lastClose == l.drive.lastClose
    && OnSince(l'.bus.log) == OnSince(l.bus.log)
  }

  lemma Orders(l: Lid)
    requires Healthy(l)
    ensures l.state == Closing ==> Turned(l, Perform(l, CmdOpen), OpenStart)
    ensures l.state == OpenStart ==> Turned(l, Perform(l, CmdClose), CloseStart)
  {
    hide Inv, TakeSnapshot, OnSince, TransitionTo;
    PerformKeeps(l, CmdOpen);
    PerformKeeps(l, CmdClose);
    HealthyPower(l);
    forall m: Lid, next
      ensures Recorder(m, TransitionTo(m, next)) && TransitionTo(m, next).state == next
      ensures
        TransitionTo(m, next) == Moved(m, next).(bus := TransitionTo(m, next).bus)
    {
      TransitionRecords(m, next);
      TransitionBegins(m);
      TransitionMoves(m, next);
    }
  }

  lemma TransitionMoves(l: Lid, next: FsmState)
    ensures TransitionTo(l, next) == Moved(l, next).(bus := TransitionTo(l, next).bus)
  {
  }

  lemma RoundGoesOn(l: Lid)
    requires Humming(l)
    ensures
      var l' := RunOps(l, ROUND);
      Humming(l') && l'.clock >= l.clock + 3000 && OnSince(l'.bus.log) == OnSince(l.bus.log)
  {
    hide Perform, Healthy, OnSince;
    var a := Perform(l, Advance(3000));
    Pause(l, 3000);
    Orders(a);
    var b := Perform(a, CmdOpen);
    Orders(b);
    var c := Perform(b, CmdClose);
    StartClosing(c);
    HealthyInv(c);
    JoinsExactly(c, Tick(Calm()));
    FourOps(l, ROUND);
  }

  lemma HealthyInv(l: Lid)
    requires Healthy(l)
    ensures Inv(l)
  {
  }

  lemma FourOps(l: Lid, ops: seq<Op>)
    requires |ops| == 4
    ensures RunOps(l, ops) == Perform(Perform(Perform(Perform(l, ops[0]), ops[1]), ops[2]), ops[3])
  {
    hide Perform;
    assert ops == [ops[0]] + [ops[1]] + [ops[2]] + [ops[3]];
    RunTwice(l, [ops[0]] + [ops[1]] + [ops[2]], [ops[3]]);
    RunTwice(l, [ops[0]] + [ops[1]], [ops[2]]);
    RunTwice(l, [ops[0]], [ops[1]]);
  }

  lemma {:induction false} RoundsGoOn(l: Lid, n: nat)
    requires Humming(l)
    ensures
      var l' := RunOps(l, Rounds(n));
      Humming(l') && l'.clock >= l.clock + 3000 * n && OnSince(l'.bus.log) == OnSince(l.bus.log)
    decreases n
  {
    hide Humming, OnSince, Perform;
    if n > 0 {
      RoundGoesOn(l);
      RoundsGoOn(RunOps(l, ROUND), n - 1);
      RunTwice(l, ROUND, Rounds(n - 1));
    }
  }

  lemma {:induction false} RunTwice(l: Lid, a: seq<Op>, b: seq<Op>)
    ensures RunOps(l, a + b) == RunOps(RunOps(l, a), b)
    decreases |a|
  {
    hide Perform;
    if a == [] {
      assert a + b == b;
    } else {
      assert (a + b)[0] == a[0] && (a + b)[1..] == a[1..] + b;
      RunTwice(Perform(l, a[0]), a[1..], b);
    }
  }

  /** Orders to open and to close again between two ticks three seconds apart, over and over:
      with an actuator time of 3.8 s the main relay stays on without a break for as long as
      they are given. */
  lemma OrdersHoldMotor(n: nat)
    ensures
      var booted := Boot(Nvs(false, false), 0, CONFIG, Calm().reading);
      var l := RunOps(booted, [CmdClose, Tick(Calm())] + Rounds(n));
      && l.bus.pins.mainOn && l.config.actuatorTime == 3800
      && l.clock >= OnSince(l.bus.log) + 3000 * n
  {
    hide Perform, Boot, Healthy, OnSince;
    HealthyBoot();
    var booted := Boot(Nvs(false, false), 0, CONFIG, Calm().reading);
    OrderClose(booted);
    StartClosing(Perform(booted, CmdClose));
    var closing := Perform(Perform(booted, CmdClose), Tick(Calm()));
    RoundsGoOn(closing, n);
    HealthyInv(closing);
    OnIsPast(closing);
    RunTwice(booted, [CmdClose, Tick(Calm())], Rounds(n));
    HealthyConfig(RunOps(closing, Rounds(n)));
  }

  lemma HealthyConfig(l: Lid)
    requires Healthy(l)
    ensures l.config == CONFIG
  {
  }

  // ---- Protection takes over an opening ----

  /** The battery is below the cutoff. */
  function Low(): Env {
    Env(Reading(Fin(10.9), Fin(100.0), true), Reading(Fin(10.9), Fin(100.0), true), 999.0, 0, 0)
  }

  /** When the low samples began, if one more is taken now. */
  function Began(p: Policy, now: u32): u32 {
    if p.latch.low.on then p.latch.low.at else now
  }

  lemma LowSample(p: Policy, now: u32)
    requires p.sampled && Since(now, p.sampleAt) <= 2000
    ensures
      var p' := Sampled(p, now, Fin(10.9), true, Fin(11.0));
      && p'.valid && p'.sampled && p'.sampleAt == now
      && p'.latch.held == (p.latch.held || Since(now, Began(p, now)) >= 3000)
      && (p'.latch.held ==> p'.display.state == Protected)
      && (!p'.latch.held ==> p'.latch.low == Timer(true, Began(p, now)))
  {
  }

  lemma SamplePower(l: Lid)
    requires l.policy.valid && l.policy.sampled && l.policy.sampleAt == l.Now()
    ensures
      var p := l.Power();
      && p.valid && p.protectedMode == l.policy.latch.held
      && (l.policy.display.state == Protected ==> p.state == Protected)
  {
  }

  /** Main on in an opening or in the protective stroke, and a reading due. */
  predicate Rising(l: Lid) {
    && Inv(l) && l.config == CONFIG && l.bus.pins.mainOn && l.drive.lastOpen && !l.charge.active
    && (l.state == Opening || (l.state == BatteryLowShutdown && l.policy.latch.held))
    && Since(l.Now(), l.stateTimer) < 3800 && 200 <= Since(l.Now(), l.lastPowerReading) <= 2000
  }

  lemma LowRead(l: Lid)
    requires Rising(l)
    ensures
      var r := PeriodicRead(l, Low().reading);
      && r.policy.valid && r.policy.sampled && r.policy.sampleAt == l.Now() && r.lastPowerReading == l.Now()
      && r.policy.latch.held == (l.policy.latch.held || Since(l.Now(), Began(l.policy, l.Now())) >= 3000)
      && (r.policy.latch.held ==> r.policy.display.state == Protected)
      && (!r.policy.latch.held ==> r.policy.latch.low == Timer(true, Began(l.policy, l.Now())))
      && r.motorCurrent == Fin(100.0)
  {
    hide SafeLog, Pinned, Sampled, Wired, Confined, Charging, Bus.Do;
    LowSample(l.policy, l.Now());
  }

  /** The protective stroke goes on. */
  lemma LowUnderProtection(l: Lid)
    requires Rising(l) && l.state == BatteryLowShutdown
    ensures
      var l' := Perform(l, Tick(Low()));
      && Inv(l') && l'.config == CONFIG && l'.bus.pins.mainOn && l'.drive.lastOpen && !l'.charge.active
      && l'.state == BatteryLowShutdown && l'.policy.latch.held && l'.clock == l.clock
      && l'.stateTimer == l.stateTimer && l'.lastPowerReading == l.Now() && OnSince(l'.bus.log) == OnSince(l.bus.log)
  {
    hide Inv, Update, PeriodicRead, TakeSnapshot, OnSince;
    LowRead(l);
    PeriodicSense(l, Low().reading);
    PeriodicTimes(l, Low().reading);
    SamplePower(PeriodicRead(l, Low().reading));
    ReadSince(l, Low().reading);
    ProtectionGoesOn(l, Low());
    PerformKeeps(l, Tick(Low()));
  }

  /** The opening goes on, until three seconds of low samples set the latch: then protection
      takes it over. */
  lemma LowWhileOpening(l: Lid)
    requires Rising(l) && l.state == Opening
    ensures
      var l' := Perform(l, Tick(Low()));
      && Inv(l') && l'.config == CONFIG && l'.bus.pins.mainOn && l'.drive.lastOpen && !l'.charge.active
      && l'.clock == l.clock && l'.lastPowerReading == l.Now() && OnSince(l'.bus.log) == OnSince(l.bus.log)
      && (if Since(l.Now(), Began(l.policy, l.Now())) < 3000 then
            && l'.state == Opening && l'.stateTimer == l.stateTimer
            && l'.policy.latch.low == Timer(true, Began(l.policy, l.Now()))
          else l'.state == BatteryLowShutdown && l'.policy.latch.held && l'.stateTimer == l.Now())
  {
    hide Inv, Update, PeriodicRead, TakeSnapshot, OnSince, ServicePower;
    PerformKeeps(l, Tick(Low()));
    LowRead(l);
    OpeningIsFree(l);
    if Since(l.Now(), Began(l.policy, l.Now())) < 3000 {
      OpeningStays(l);
    } else {
      OpeningIsTaken(l);
    }
  }

  lemma OpeningIsFree(l: Lid)
    requires Inv(l) && l.state == Opening
    ensures !l.policy.latch.held
  {
  }

  lemma OpeningStays(l: Lid)
    requires Rising(l) && l.state == Opening && Since(l.Now(), Began(l.policy, l.Now())) < 3000
    ensures
      var l', r := Update(l, Low()), PeriodicRead(l, Low().reading);
      && l'.state == Opening && l'.bus == r.bus && l'.policy == r.policy && l'.stateTimer == l.stateTimer
      && l'.lastPowerReading == l.Now() && l'.drive.lastOpen && !l'.charge.active && l'.clock == l.clock
      && l'.config == CONFIG && l'.bus.pins.mainOn && OnSince(l'.bus.log) == OnSince(l.bus.log)
  {
    hide SafeLog, Pinned, PeriodicRead, TakeSnapshot, OnSince, Wired, Metered, SuperviseCharge, Protect, EnterProtection,
         ForceOff, LeaveProtection, AllOff, TransitionTo, Opened;
    LowRead(l);
    OpeningIsFree(l);
    var r := PeriodicRead(l, Low().reading);
    PeriodicReadKeeps(l, Low().reading);
    HeldIsShown(r);
    ReadSince(l, Low().reading);
    SensedSame(l, Low());
    ObservedKeeps(r, Low().distance);
  }

  lemma ObservedKeeps(l: Lid, raw: real)
    ensures Observed(l, raw) == l.(sense := Observed(l, raw).sense)
  {
    hide TakeSnapshot, Median, Pushed;
  }

  lemma OpeningIsTaken(l: Lid)
    requires Rising(l) && l.state == Opening && Since(l.Now(), Began(l.policy, l.Now())) >= 3000
    ensures
      var l', r := Update(l, Low()), PeriodicRead(l, Low().reading);
      && l'.state == BatteryLowShutdown && l'.policy == r.policy && l'.stateTimer == l.Now() && l'.policy.latch.held
      && l'.lastPowerReading == l.Now() && l'.drive.lastOpen && !l'.charge.active && l'.clock == l.clock
      && l'.config == CONFIG && l'.bus.pins.mainOn && OnSince(l'.bus.log) == OnSince(l.bus.log)
  {
    hide SafeLog, Pinned, PeriodicRead, TakeSnapshot, OnSince, SuperviseCharge, EnterProtection,
         ForceOff, LeaveProtection, AllOff, TransitionTo;
    LowRead(l);
    OpeningIsFree(l);
    var r := PeriodicRead(l, Low().reading);
    PeriodicReadKeeps(l, Low().reading);
    HeldIsShown(r);
    SamplePower(r);
    ReadSince(l, Low().reading);
    TakenOver(r);
  }

  /** Entry into protection with the opening still driven. */
  lemma TakenOver(l: Lid)
    requires Wired(l) && Owned(l) && l.bus.pins.mainOn && l.drive.lastOpen && !l.charge.active
    requires l.Power().valid && l.Power().state == Protected
    ensures
      var l' := EnterProtection(l, Low());
      && l'.state == BatteryLowShutdown && l'.clock == l.clock && l'.stateTimer == l.Now() && l'.policy == l.policy
      && l'.lastPowerReading == l.lastPowerReading && l'.drive.lastOpen && l'.drive.lowBatteryOpening
      && !l'.charge.active && l'.config == l.config
      && l'.bus.pins.mainOn && OnSince(l'.bus.log) == OnSince(l.bus.log)
  {
    hide SetRelays, TransitionTo, OnSince, ForceOff, TakeSnapshot, SafeLog, Pinned;
    var m := l.(drive := l.drive.(lowBatteryOpening := true));
    TransitionRecords(m, BatteryLowShutdown);
    TransitionWired(m, BatteryLowShutdown);
    EnergisedAgain(TransitionTo(m, BatteryLowShutdown));
  }

  lemma EnergisedAgain(l: Lid)
    requires Wired(l) && l.bus.pins.mainOn && l.drive.lastOpen && !l.charge.active
    ensures
      var l' := SetRelays(l, true, true, false, Low());
      && l' == l.(bus := l'.bus, drive := l.drive.(isolated := false))
      && l'.bus.pins.mainOn && OnSince(l'.bus.log) == OnSince(l.bus.log)
  {
    hide SafeLog, Rechecked, SwitchDirection;
  }

  /** A second, and then a tick with the battery low. */
  function LowSecond(l: Lid): Lid {
    Perform(Perform(l, Advance(1000)), Tick(Low()))
  }

  /** Main on since 200 ms after boot, and the times as the run below meets them. */
  predicate RisingAt(l: Lid, at: nat, timer: u32, protect: bool) {
    && Inv(l) && l.config == CONFIG && l.bus.pins.mainOn && l.drive.lastOpen && !l.charge.active
    && l.clock == at && l.lastPowerReading == l.Now() && l.stateTimer == timer && OnSince(l.bus.log) == 200
    && (if protect then l.state == BatteryLowShutdown && l.policy.latch.held
        else l.state == Opening && l.policy.latch.low == Timer(true, 400))
  }

  lemma LowSecondOpening(l: Lid, at: nat)
    requires RisingAt(l, at, 200, false) && 400 <= at <= 2400
    ensures
      if at + 1000 < 3400 then RisingAt(LowSecond(l), at + 1000, 200, false)
      else RisingAt(LowSecond(l), at + 1000, Wrap(at + 1000), true)
  {
    hide Inv, OnSince, Update;
    PerformKeeps(l, Advance(1000));
    LowWhileOpening(Perform(l, Advance(1000)));
  }

  lemma LowSecondProtected(l: Lid, at: nat)
    requires RisingAt(l, at, 3400, true) && 3400 <= at <= 5400
    ensures RisingAt(LowSecond(l), at + 1000, 3400, true)
  {
    hide Inv, OnSince, Update;
    PerformKeeps(l, Advance(1000));
    LowUnderProtection(Perform(l, Advance(1000)));
  }

  /** The first tick of an opening from rest. */
  lemma StartOpening(l: Lid)
    requires Healthy(l) && l.state == OpenStart && !l.drive.lastOpen && !l.bus.pins.mainOn
    requires Since(l.Now(), l.lastPowerReading) < 200
    ensures
      var l' := Perform(l, Tick(Calm()));
      && Inv(l') && l'.config == CONFIG && l'.state == Opening && l'.bus.pins.mainOn && l'.drive.lastOpen
      && !l'.charge.active && l'.clock == l.clock + 200 && l'.stateTimer == l'.Now() && OnSince(l'.bus.log) == l'.clock
      && l'.policy == l.policy && l'.lastPowerReading == l.lastPowerReading
  {
    hide Inv, ServicePower, TakeSnapshot, SetRelays, TransitionTo, SafeLog, Pinned, WellFormed, Observed, OnSince;
    var env := Calm();
    InvCharge(l);
    HealthyRead(l, env);
    PerformKeeps(l, Tick(env));
    ServedWithoutProtection(l, env);
    FarReading(ServicePower(l, env).lid);
    var o := Observed(ServicePower(l, env).lid, env.distance);
    StrokeWired(o, true, env);
    OpeningTime(o, env);
    TransitionWired(SetRelays(o, true, true, false, env), Opening);
    OpAccounted(l, Tick(env));
  }

  lemma OpeningTime(l: Lid, env: Env)
    requires !l.charge.active && !l.drive.lastOpen && env == Calm()
    ensures SetRelays(l, true, true, false, env).clock == l.clock + 200
  {
    hide Bus.Do;
  }

  lemma OpenFromBoot()
    ensures
      var l := Perform(Boot(Nvs(false, false), 0, CONFIG, Calm().reading), CmdOpen);
      && Healthy(l) && l.state == OpenStart && !l.drive.lastOpen && !l.bus.pins.mainOn && l.clock == 0
      && l.lastPowerReading == 0 && !l.policy.latch.low.on
  {
    hide Inv, TakeSnapshot;
    HealthyBoot();
    var booted := Boot(Nvs(false, false), 0, CONFIG, Calm().reading);
    BootKeeps(Nvs(false, false), 0, CONFIG, Calm().reading);
    HealthyPower(booted);
    PerformKeeps(booted, CmdOpen);
  }

  /** An opening during which the battery falls below its cutoff. After three seconds
      protection takes it over with a stroke of its own, and the main relay, on since 200 ms,
      is still on at 6400 ms: ticks a second apart, an actuator time of 3.8 s. */
  lemma ProtectionTakesOver()
    ensures
      var booted := Boot(Nvs(false, false), 0, CONFIG, Calm().reading);
      var opening := Perform(Perform(booted, CmdOpen), Tick(Calm()));
      var falling := Perform(Perform(opening, Advance(200)), Tick(Low()));
      var taken := LowSecond(LowSecond(LowSecond(falling)));
      var last := LowSecond(LowSecond(LowSecond(taken)));
      && opening.state == Opening && OnSince(opening.bus.log) == 200
      && taken.state == BatteryLowShutdown && taken.clock == 3400
      && last.bus.pins.mainOn && OnSince(last.bus.log) == 200 && last.clock == 6400
  {
    hide Perform, Boot, LowSecond, Inv, OnSince, Healthy;
    OpenFromBoot();
    var booted := Boot(Nvs(false, false), 0, CONFIG, Calm().reading);
    StartOpening(Perform(booted, CmdOpen));
    var opening := Perform(Perform(booted, CmdOpen), Tick(Calm()));
    FirstLow(opening);
    var falling := Perform(Perform(opening, Advance(200)), Tick(Low()));
    LowSecondOpening(falling, 400);
    LowSecondOpening(LowSecond(falling), 1400);
    LowSecondOpening(LowSecond(LowSecond(falling)), 2400);
    var taken := LowSecond(LowSecond(LowSecond(falling)));
    LowSecondProtected(taken, 3400);
    LowSecondProtected(LowSecond(taken), 4400);
    LowSecondProtected(LowSecond(LowSecond(taken)), 5400);
  }

  lemma FirstLow(l: Lid)
    requires Inv(l) && l.config == CONFIG && l.bus.pins.mainOn && l.drive.lastOpen && !l.charge.active
    requires l.state == Opening && l.clock == 200 && l.stateTimer == 200 && l.lastPowerReading == 0
    requires OnSince(l.bus.log) == 200 && !l.policy.latch.low.on
    ensures RisingAt(Perform(Perform(l, Advance(200)), Tick(Low())), 400, 200, false)
  {
    hide Inv, OnSince, Update;
    PerformKeeps(l, Advance(200));
    LowWhileOpening(Perform(l, Advance(200)));
  }
}
