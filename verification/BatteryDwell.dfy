/** What the readiness and warning flags of a snapshot mean in real time. */
module BatteryDwell {
  import opened Numeric
  import opened BatteryPolicy
  import opened BatteryHistory

  /** An unbroken run inside the band ends in a sample at most two seconds old and
      began at least ms ago. */
  ghost predicate HeldFor(h: History, band: Band, ms: nat, now: nat) {
    && h != [] && Last(h).Sample? && now - Last(h).at <= MAX_SAMPLE_GAP_MS
    && exists i: nat :: Run(h, i, band) && now - h[i].at >= ms
  }

  /** The run, if there is one, began less than 2^32 ms (49.7 days) ago. */
  ghost predicate WithinOneTurn(h: History, band: Band, now: nat) {
    forall i: nat :: Run(h, i, band) ==> now - h[i].at < WRAP
  }

  /** A timer test on a snapshot that is recent enough. */
  predicate Shows(p: Policy, t: Timer, ms: u32, now: u32) {
    p.sampled && Since(now, p.sampleAt) <= MAX_SAMPLE_GAP_MS && t.Reached(now, ms)
  }

  /** The timer test of a snapshot, exactly: the length of the longest run counts modulo 2^32. */
  lemma DwellExact(t: Timer, h: History, band: Band, ms: u32, now: nat)
    requires Timed(h) && AskedAt(h, now) && Tells(t, h, band)
    ensures
      var p := Replay(h);
      Shows(p, t, ms, Wrap(now)) <==>
      (h != [] && Last(h).Sample? && now - Last(h).at <= MAX_SAMPLE_GAP_MS &&
       Start(h, band).Some? && Counted(now - h[Start(h, band).value].at) >= ms)
  {
    hide Replay, Timed, WithinOneTurn;
    SampleClock(h);
    if LastAt(h).Some? { SinceIsElapsed(now, LastAt(h).value); }
    var s := Start(h, band);
    if s.Some? {
      RunIsInOrder(h, band, s.value);
      SinceIsElapsed(now, h[s.value].at);
    }
  }

  lemma {:induction false} RunIsInOrder(h: History, band: Band, i: nat)
    requires Timed(h) && Run(h, i, band)
    ensures h[i].at <= Last(h).at
  {
    if i < |h| - 1 {
      assert Run(Init(h), i, band);
      RunIsInOrder(Init(h), band, i);
    }
  }

  lemma DwellSound(t: Timer, h: History, band: Band, ms: u32, now: nat)
    requires Timed(h) && AskedAt(h, now) && Tells(t, h, band)
    requires Shows(Replay(h), t, ms, Wrap(now))
    ensures HeldFor(h, band, ms, now)
  {
    DwellExact(t, h, band, ms, now);
    var i := Start(h, band).value;
    RunIsInOrder(h, band, i);
    assert Run(h, i, band) && now - h[i].at >= ms;
  }

  lemma DwellComplete(t: Timer, h: History, band: Band, ms: u32, now: nat)
    requires Timed(h) && AskedAt(h, now) && Tells(t, h, band)
    requires HeldFor(h, band, ms, now) && WithinOneTurn(h, band, now)
    ensures Shows(Replay(h), t, ms, Wrap(now))
  {
    var i: nat :| Run(h, i, band) && now - h[i].at >= ms;
    StartIsLongest(h, band, i);
    var s := Start(h, band).value;
    LaterInRun(h, band, s, i);
    RunIsInOrder(h, band, s);
    assert Run(h, s, band);
    assert Counted(now - h[s].at) == now - h[s].at >= ms;
    DwellExact(t, h, band, ms, now);
  }

  lemma {:induction false} LaterInRun(h: History, band: Band, s: nat, i: nat)
    requires Timed(h) && Run(h, s, band) && s <= i < |h|
    ensures h[s].at <= h[i].at
  {
    if i < |h| - 1 {
      if s < |h| - 1 {
        assert Run(Init(h), s, band);
        LaterInRun(Init(h), band, s, i);
      }
    } else {
      RunIsInOrder(h, band, s);
    }
  }

  lemma DwellMeaning(t: Timer, h: History, band: Band, ms: u32, now: nat)
    requires Timed(h) && AskedAt(h, now) && Tells(t, h, band)
    ensures Shows(Replay(h), t, ms, Wrap(now)) ==> HeldFor(h, band, ms, now)
    ensures WithinOneTurn(h, band, now) && HeldFor(h, band, ms, now) ==> Shows(Replay(h), t, ms, Wrap(now))
  {
    if Shows(Replay(h), t, ms, Wrap(now)) { DwellSound(t, h, band, ms, now); }
    if HeldFor(h, band, ms, now) && WithinOneTurn(h, band, now) { DwellComplete(t, h, band, ms, now); }
  }

  /** A running timer means the latest sample was usable, so a snapshot flag is its timer test. */
  lemma FlagsAreTimers(p: Policy, now: u32)
    requires WellFormed(p)
    ensures TakeSnapshot(p, now).lowWarning <==> Shows(p, p.warning, LOW_WARNING_MS, now)
    ensures TakeSnapshot(p, now).otaReady <==> p.valid && !p.latch.held && Shows(p, p.healthy, READY_MS, now)
    ensures TakeSnapshot(p, now).forceOtaReady <==> p.valid && Shows(p, p.force, READY_MS, now)
  {
  }

  lemma ReadyTimersNeedValid(h: History)
    ensures Replay(h).healthy.on || Replay(h).force.on ==> Replay(h).valid
  {
  }

  /** OTA readiness is never shown without 30 s of real time at or above the
      recovery voltage, and always shown with it while the latch is free. */
  lemma OtaReadyMeaning(h: History, now: nat)
    requires Timed(h) && AskedAt(h, now)
    ensures
      var ready := TakeSnapshot(Replay(h), Wrap(now)).otaReady;
      && (ready ==> !Replay(h).latch.held && HeldFor(h, Rising, READY_MS, now))
      && (WithinOneTurn(h, Rising, now) && !Replay(h).latch.held && HeldFor(h, Rising, READY_MS, now) ==> ready)
  {
    hide Timed, Replay, Start, HeldFor, WithinOneTurn, TakeSnapshot, Run;
    ReplayWellFormed(h);
    ReadyTimersNeedValid(h);
    FlagsAreTimers(Replay(h), Wrap(now));
    StandingTimers(h);
    DwellMeaning(Replay(h).healthy, h, Rising, READY_MS, now);
  }

  /** The same for the forced-update floor, whatever the latch does. */
  lemma ForceOtaReadyMeaning(h: History, now: nat)
    requires Timed(h) && AskedAt(h, now)
    ensures
      var ready := TakeSnapshot(Replay(h), Wrap(now)).forceOtaReady;
      && (ready ==> HeldFor(h, Forced, READY_MS, now))
      && (WithinOneTurn(h, Forced, now) && HeldFor(h, Forced, READY_MS, now) ==> ready)
  {
    hide Timed, Replay, Start, HeldFor, WithinOneTurn, TakeSnapshot, Run;
    ReplayWellFormed(h);
    ReadyTimersNeedValid(h);
    FlagsAreTimers(Replay(h), Wrap(now));
    StandingTimers(h);
    DwellMeaning(Replay(h).force, h, Forced, READY_MS, now);
  }

  /** With no bound on the run: its length counts modulo 2^32. */
  ghost predicate WarningDue(samples: History, now: nat) {
    samples != [] && Last(samples).Sample? && now - Last(samples).at <= MAX_SAMPLE_GAP_MS &&
    Start(samples, Warned).Some? &&
    Counted(now - samples[Start(samples, Warned).value].at) >= LOW_WARNING_MS
  }

  /** The sample history alone decides the warning; without restores it is one more dwell timer. */
  lemma WarningOfSamples(h: History, now: nat)
    requires Timed(h) && AskedAt(h, now)
    requires forall k :: 0 <= k < |h| ==> h[k].Sample?
    ensures
      var shown := TakeSnapshot(Replay(h), Wrap(now)).lowWarning;
      && (shown <==> WarningDue(h, now))
      && (shown ==> HeldFor(h, Warned, LOW_WARNING_MS, now))
      && (WithinOneTurn(h, Warned, now) && HeldFor(h, Warned, LOW_WARNING_MS, now) ==> shown)
  {
    hide Timed, Replay, Start, HeldFor, WithinOneTurn, TakeSnapshot, Shows, Run;
    WarningTimer(h);
    var t := Replay(h).warning;
    WarningFlagAfter(h, Wrap(now));
    DwellExact(t, h, Warned, LOW_WARNING_MS, now);
    DwellMeaning(t, h, Warned, LOW_WARNING_MS, now);
  }

  lemma WarningFlagAfter(h: History, now: u32)
    ensures TakeSnapshot(Replay(h), now).lowWarning <==> Shows(Replay(h), Replay(h).warning, LOW_WARNING_MS, now)
  {
    ReplayWellFormed(h);
    FlagsAreTimers(Replay(h), now);
  }

  /** The owner warning, whatever restores are mixed in: 300 s at or below 11.0 V. */
  lemma LowWarningMeaning(h: History, now: nat)
    requires Timed(h) && AskedAt(h, now)
    ensures
      var shown := TakeSnapshot(Replay(h), Wrap(now)).lowWarning;
      var samples := SamplesOnly(h);
      && (shown <==> WarningDue(samples, now))
      && (shown ==> HeldFor(samples, Warned, LOW_WARNING_MS, now))
      && (WithinOneTurn(samples, Warned, now) && HeldFor(samples, Warned, LOW_WARNING_MS, now) ==> shown)
  {
    hide Timed, Replay, Start, HeldFor, WithinOneTurn, TakeSnapshot, Shows, Run, SamplesOnly;
    SamplesOnlyKeepsTime(h);
    RestoreNeverDisturbsWarning(h, Wrap(now));
    WarningOfSamples(SamplesOnly(h), now);
  }

  /** A battery at 10.5 V, read every two seconds. */
  function SteadyLow(n: nat): (h: History)
    ensures |h| == n + 1 && Last(h) == Sample(2000 * n, Fin(10.5), true, Fin(11.0))
  {
    if n == 0 then [Sample(0, Fin(10.5), true, Fin(11.0))]
    else SteadyLow(n - 1) + [Sample(2000 * n, Fin(10.5), true, Fin(11.0))]
  }

  lemma {:induction false} SteadyLowRuns(n: nat)
    ensures Timed(SteadyLow(n)) && Start(SteadyLow(n), Warned) == Some(0)
    ensures SteadyLow(n)[0].Sample? && SteadyLow(n)[0].at == 0
    ensures forall k :: 0 <= k <= n ==> SteadyLow(n)[k].Sample?
  {
    hide SamplesOnly, Replay, In;
    if n > 0 {
      SteadyLowRuns(n - 1);
      var h := SteadyLow(n);
      LowIsWarned(2000 * n);
      assert Init(h) == SteadyLow(n - 1);
      assert h[n - 1] == Last(Init(h));
      assert forall k :: 0 <= k < n ==> h[k] == Init(h)[k];
    } else {
      LowIsWarned(0);
    }
  }

  lemma LowIsWarned(at: nat)
    ensures In(Warned, Sample(at, Fin(10.5), true, Fin(11.0)))
  {
  }

  /** The bound in `LowWarningMeaning` is needed: after 49.7 days of unbroken low
      voltage the counter has come round, and for five minutes the warning is off. */
  lemma WarningLapsesAfterOneTurn(n: nat)
    requires WRAP <= 2000 * n < WRAP + LOW_WARNING_MS
    ensures
      var h, now := SteadyLow(n), 2000 * n;
      && Timed(h) && AskedAt(h, now)
      && HeldFor(h, Warned, LOW_WARNING_MS, now)
      && !TakeSnapshot(Replay(h), Wrap(now)).lowWarning
  {
    hide SteadyLow, Timed, Replay, TakeSnapshot;
    var h, now := SteadyLow(n), 2000 * n;
    SteadyLowRuns(n);
    WarningOfSamples(h, now);
    assert Run(h, 0, Warned) && now - h[0].at >= LOW_WARNING_MS;
  }
}
