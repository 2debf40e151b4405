/** A healthy device that waits: nobody near, and a good battery reading every second. */
module OtaSteps {
  import opened Numeric
  import opened BatteryPolicy
  import opened BatteryHistory
  import opened DistanceFilter
  import opened Gpio
  import opened Lid
  import opened LidWiring
  import opened LidInvariant
  import opened LidRecord
  import opened LidDirections
  import opened LidReactions
  import opened LidSense
  import opened LidTimes
  import opened LidSight
  import opened LidSteps
  import opened OtaProcess

  /** Nobody near, and the battery at 12.6 V since t0, by a reading of this moment. */
  predicate Sunny(l: Lid, t0: nat) {
    && Good(l) && l.config == CONFIG && l.state == Idle && t0 <= l.clock && l.lastPowerReading == l.Now()
    && Charged(l.policy) && l.policy.healthy == Timer(true, Wrap(t0)) && l.policy.valid
    && l.policy.force == Timer(true, Wrap(t0)) && l.motorCurrent == Fin(10.0) && l.lastVerified == Fin(12.6)
    && !l.drive.lastOpen && !l.drive.lastClose && l.sense.distance == FAR && l.sense.window == ALL_FAR
    && !l.ota.used && BatteryHistory.Timed(BatteryOf(l)) && LastAt(BatteryOf(l)) == Some(l.clock)
  }

  lemma ChargedSample(p: Policy, now: u32)
    requires !p.latch.held
    ensures
      var p' := Sampled(p, now, Fin(12.6), true, Fin(11.0));
      && Charged(p') && p'.valid && p'.sampled && p'.sampleAt == now
      && p'.healthy == (if p.healthy.on && !BatteryPolicy.Gap(p, now) then p.healthy else Timer(true, now))
      && p'.force == (if p.force.on && !BatteryPolicy.Gap(p, now) then p.force else Timer(true, now))
  {
    hide Shown;
  }

  lemma SunnyBoot(clock: nat)
    ensures Sunny(Boot(Nvs(false, false), clock, CONFIG, Calm().reading), clock)
  {
    hide Inv, Remembered, Sampled, Charged;
    BootKeeps(Nvs(false, false), clock, CONFIG, Calm().reading);
    BootRecorded(Nvs(false, false), clock, CONFIG, Calm().reading);
    ChargedSample(INITIAL, Wrap(clock));
    BootHistory(clock);
  }

  lemma BootHistory(clock: nat)
    ensures
      var h := BatteryOf(Boot(Nvs(false, false), clock, CONFIG, Calm().reading));
      BatteryHistory.Timed(h) && LastAt(h) == Some(clock)
  {
    hide ReadSensors;
    var l := PowerOn(Nvs(false, false), clock, CONFIG);
    ReadHistory(l, Calm().reading);
    FirstSample(Sample(clock, Fin(12.6), true, Fin(11.0)));
  }

  lemma FirstSample(o: Obs)
    requires o.Sample?
    ensures BatteryHistory.Timed([] + [o]) && LastAt([] + [o]) == Some(o.at)
  {
    assert Init([] + [o]) == [];
  }

  /** One more sample, within a turn of the counter. */
  lemma NextSample(h: History, o: Obs)
    requires BatteryHistory.Timed(h) && o.Sample? && LastAt(h).Some? && LastAt(h).value <= o.at < LastAt(h).value + WRAP
    ensures BatteryHistory.Timed(h + [o]) && LastAt(h + [o]) == Some(o.at)
  {
    assert Init(h + [o]) == h;
  }

  /** A second later there is one more good reading. */
  lemma SunnyRead(l: Lid, t0: nat)
    requires Sunny(l, t0)
    ensures
      var r := PeriodicRead(l.(clock := l.clock + 1000), Calm().reading);
      && r.lastPowerReading == Wrap(l.clock + 1000) && Charged(r.policy) && r.policy.valid
      && r.policy.healthy == Timer(true, Wrap(t0)) && r.policy.sampleAt == Wrap(l.clock + 1000)
      && r.policy.force == Timer(true, Wrap(t0)) && r.motorCurrent == Fin(10.0) && r.lastVerified == Fin(12.6)
      && r.ota == l.ota && BatteryHistory.Timed(BatteryOf(r)) && LastAt(BatteryOf(r)) == Some(l.clock + 1000)
  {
    hide SafeLog, Pinned, Sampled, WellFormed, Wired, Confined, Powered, Charging, Bus.Do, SeenIn, Remembered;
    Elapsed(l.clock, 1000);
    ChargedSample(l.policy, Wrap(l.clock + 1000));
    var a := l.(clock := l.clock + 1000);
    ReadHistory(a, Calm().reading);
    NextSample(BatteryOf(l), Sample(a.clock, Fin(12.6), true, a.config.voltageShutdownLimit));
  }

  lemma SunnySecond(l: Lid, t0: nat)
    requires Sunny(l, t0)
    ensures
      var l' := Perform(Perform(l, Advance(1000)), Tick(Calm()));
      Sunny(l', t0) && l'.clock == l.clock + 1000
  {
    hide Inv, Remembered, ServicePower, PeriodicRead, Charged, TakeSnapshot, RunState;
    var a := Perform(l, Advance(1000));
    GoodKeeps(l, Advance(1000));
    GoodKeeps(a, Tick(Calm()));
    SunnyRead(l, t0);
    SunnyServed(a);
    UpdateSenses(a, Calm());
    var o := Sensed(a, Calm());
    PeriodicSense(a, Calm().reading);
    PeriodicTimes(a, Calm().reading);
    FarReading(PeriodicRead(a, Calm().reading));
    SensedDrive(a, Calm());
    ObservedRecord(PeriodicRead(a, Calm().reading), Calm().distance);
    FarIdle(o, Calm());
  }

  lemma ObservedRecord(l: Lid, raw: real)
    ensures SameRecord(l, Observed(l, raw)) && Observed(l, raw).ota == l.ota
  {
    hide TakeSnapshot, Median, Pushed;
  }

  /** The power service leaves such a tick to the state machine. */
  lemma SunnyServed(l: Lid)
    requires Good(l) && l.state == Idle && Charged(PeriodicRead(l, Calm().reading).policy)
    ensures Senses(l, Tick(Calm()))
  {
    hide SafeLog, Pinned, PeriodicRead, SuperviseCharge, Protect, EnterProtection, LeaveProtection, ForceOff, Inv, Remembered, TakeSnapshot;
    InvCharge(l);
    ServicePowerKeeps(l, Calm());
    PeriodicSense(l, Calm().reading);
    PeriodicReadKeeps(l, Calm().reading);
    HealthyPolicyPower(PeriodicRead(l, Calm().reading));
  }

  /** With nobody near the idle lid stays as it is. */
  lemma FarIdle(l: Lid, env: Env)
    requires l.state == Idle && l.config == CONFIG && l.sense.distance == FAR && !l.drive.lastOpen && !l.drive.lastClose
    ensures
      var l' := RunState(l, env);
      && l' == l.(bus := l'.bus, sense := l'.sense) && l'.sense.distance == FAR && l'.sense.window == l.sense.window
      && SeenIn(l'.bus.log) == SeenIn(l.bus.log)
  {
    hide AllOff;
    StillOff(l, env);
  }

  lemma StillOff(l: Lid, env: Env)
    requires !l.drive.lastOpen && !l.drive.lastClose
    ensures AllOff(l, env) == Emit(l, MainOff)
  {
    hide SwitchDirection, Bus.Do;
  }

  lemma SunnyIsReady(l: Lid, t0: nat)
    requires Sunny(l, t0) && 30000 <= l.clock - t0 < WRAP
    ensures CanStartOta(l, false, false)
  {
    hide SafeLog, Pinned, WellFormed, Wired, Confined, Powered, Charging;
    SinceIsElapsed(l.clock, t0);
    SinceIsElapsed(l.clock, l.clock);
  }

  function Seconds(n: nat): Gap {
    if n == 0 then [] else [Operate(Advance(1000)), Operate(Tick(Calm()))] + Seconds(n - 1)
  }

  lemma {:induction false} SunnySeconds(u: Updater, t0: nat, n: nat)
    requires Sunny(u.lid, t0)
    ensures
      var u' := Interleave(u, Seconds(n));
      u' == u.(lid := u'.lid) && Sunny(u'.lid, t0) && u'.lid.clock == u.lid.clock + 1000 * n
    decreases n
  {
    hide Sunny, Perform;
    if n > 0 {
      var gap := [Operate(Advance(1000)), Operate(Tick(Calm()))] + Seconds(n - 1);
      var waited := Disturbed(u, Operate(Advance(1000)));
      var ticked := Disturbed(waited, Operate(Tick(Calm())));
      SunnySecond(u.lid, t0);
      assert gap[1..][1..] == Seconds(n - 1) && gap[1..][0] == Operate(Tick(Calm()));
      assert Interleave(u, gap) == Interleave(waited, gap[1..]) == Interleave(ticked, Seconds(n - 1));
      SunnySeconds(ticked, t0, n - 1);
    }
  }

  // ---- The sensor fails ----

  function Faulty(): Env {
    Calm().(reading := Reading(NaN, Fin(0.0), false))
  }

  /** A reading of this moment that cannot be used, after good ones. */
  predicate Cloudy(l: Lid) {
    && Good(l) && l.config == CONFIG && l.state == Idle && !l.ota.used
    && !l.policy.valid && l.policy.sampled && l.policy.sampleAt == l.Now()
    && l.motorCurrent == Fin(0.0) && l.lastVerified == Fin(12.6)
    && BatteryHistory.Timed(BatteryOf(l)) && LastAt(BatteryOf(l)) == Some(l.clock)
  }

  lemma FaultySample(p: Policy, now: u32)
    requires Charged(p)
    ensures
      var p' := Sampled(p, now, NaN, false, Fin(11.0));
      Charged(p') && !p'.valid && p'.sampled && p'.sampleAt == now
  {
  }

  lemma FaultyRead(l: Lid, t0: nat)
    requires Sunny(l, t0)
    ensures
      var r := PeriodicRead(l.(clock := l.clock + 1000), Faulty().reading);
      && Charged(r.policy) && !r.policy.valid && r.policy.sampled && r.policy.sampleAt == Wrap(l.clock + 1000)
      && r.motorCurrent == Fin(0.0) && r.lastVerified == Fin(12.6)
      && r.ota == l.ota && BatteryHistory.Timed(BatteryOf(r)) && LastAt(BatteryOf(r)) == Some(l.clock + 1000)
  {
    hide SafeLog, Pinned, Sampled, WellFormed, Wired, Confined, Powered, Charging, Bus.Do, SeenIn, Remembered;
    Elapsed(l.clock, 1000);
    FaultySample(l.policy, Wrap(l.clock + 1000));
    var a := l.(clock := l.clock + 1000);
    ReadHistory(a, Faulty().reading);
    NextSample(BatteryOf(l), Sample(a.clock, NaN, false, a.config.voltageShutdownLimit));
  }

  lemma FaultyServed(l: Lid)
    requires Good(l) && l.state == Idle && Charged(PeriodicRead(l, Faulty().reading).policy)
    ensures Senses(l, Tick(Faulty()))
  {
    hide SafeLog, Pinned, PeriodicRead, SuperviseCharge, Protect, EnterProtection, LeaveProtection, ForceOff, Inv, Remembered, TakeSnapshot;
    InvCharge(l);
    ServicePowerKeeps(l, Faulty());
    PeriodicSense(l, Faulty().reading);
    PeriodicReadKeeps(l, Faulty().reading);
    HealthyPolicyPower(PeriodicRead(l, Faulty().reading));
  }

  lemma FaultySecond(l: Lid, t0: nat)
    requires Sunny(l, t0)
    ensures
      var l' := Perform(Perform(l, Advance(1000)), Tick(Faulty()));
      Cloudy(l') && l'.clock == l.clock + 1000
  {
    hide Inv, Remembered, ServicePower, PeriodicRead, Charged, TakeSnapshot, RunState;
    var a := Perform(l, Advance(1000));
    GoodKeeps(l, Advance(1000));
    GoodKeeps(a, Tick(Faulty()));
    FaultyRead(l, t0);
    FaultyServed(a);
    UpdateSenses(a, Faulty());
    var o := Sensed(a, Faulty());
    PeriodicSense(a, Faulty().reading);
    PeriodicTimes(a, Faulty().reading);
    FarReading(PeriodicRead(a, Faulty().reading));
    SensedDrive(a, Faulty());
    ObservedRecord(PeriodicRead(a, Faulty().reading), Faulty().distance);
    FarIdle(o, Faulty());
  }
}
