/** When exactly the protection latch is set and released, in real time. */
module BatteryLatch {
  import opened Numeric
  import opened BatteryPolicy
  import opened BatteryHistory

  predicate Held(h: History) {
    Replay(h).latch.held
  }

  /** The latest event released the latch. */
  predicate JustReleased(h: History) {
    h != [] && Held(Init(h)) && !Held(h)
  }

  /** The latch after a sample, apart from everything else that sample does. */
  lemma LatchAfterSample(h: History)
    requires h != [] && Last(h).Sample?
    ensures
      var o, l := Last(h), Replay(Init(h)).latch;
      var stopped := l.(low := l.low.StopIf(Broken(h)), recovery := l.recovery.StopIf(Broken(h)));
      Replay(h).latch ==
      if Usable(o.voltage, o.ok)
      then LatchStep(stopped, Wrap(o.at), o.voltage.r, Cutoff(o.limit), RecoveryVoltage(o.limit))
      else stopped
  {
  }

  /** The recovery timer while the latch is held: the longest run at or above the recovery voltage. */
  predicate RecoveryMeaning(h: History) {
    var l := Replay(h).latch;
    if l.held then
      && Tells(l.recovery, h, Rising)
      && (Start(h, Rising).Some? ==> Last(h).at - h[Start(h, Rising).value].at < RECOVERY_MS)
    else !l.recovery.on
  }

  /** A rising run while the latch is held is short, so the counter measures it exactly. */
  lemma RisingRunMeasured(h: History)
    requires Timed(h) && h != [] && In(Rising, Last(h))
    requires RecoveryMeaning(Init(h)) && Held(Init(h))
    ensures
      var i := Start(h, Rising).value;
      && h[i].at <= Last(h).at
      && Since(Wrap(Last(h).at), Wrap(h[i].at)) == Last(h).at - h[i].at
  {
    var i := Start(h, Rising).value;
    var n := |h| - 1;
    if i < n {
      assert Start(Init(h), Rising) == Some(i);
      assert Init(h)[i] == h[i] && Last(Init(h)) == h[n - 1];
      assert LastAt(Init(h)) == Some(h[n - 1].at);
      RunIsOrdered(Init(h), i, n - 1, Rising);
    }
    SinceIsElapsed(Last(h).at, h[i].at);
  }

  /** The latch after one more sample, from the recovery timer as that sample leaves it. */
  lemma RecoveryStep(h: History)
    requires Timed(h) && h != [] && Last(h).Sample?
    requires RecoveryMeaning(Init(h)) && WellFormed(Replay(Init(h)))
    ensures RecoveryMeaning(h)
    ensures Held(Init(h)) ==>
              (!Held(h) <==> Start(h, Rising).Some? &&
                             Last(h).at - h[Start(h, Rising).value].at >= RECOVERY_MS)
  {
    hide Replay;
    LatchAfterSample(h);
    var p, o := Replay(Init(h)), Last(h);
    if Held(Init(h)) {
      GapIsReal(h);
      DwellTells(p.latch.recovery, h, Rising, Broken(h));
      if In(Rising, o) { RisingRunMeasured(h); }
    } else if In(Falling, o) {
      assert !In(Rising, o);
    }
  }

  lemma {:induction false} RecoveryHistory(h: History)
    requires Timed(h)
    ensures RecoveryMeaning(h)
  {
    if h != [] {
      RecoveryHistory(Init(h));
      ReplayWellFormed(Init(h));
      if Last(h).Sample? { RecoveryStep(h); }
    }
  }

  /** The latch is released by exactly the samples that complete 300 s of real time
      at or above the recovery voltage in force at each sample, two seconds apart at
      most, with no restored protection between. */
  lemma ReleaseExact(h: History)
    requires Timed(h) && h != [] && Held(Init(h))
    ensures !Held(h) <==>
            Last(h).Sample? && exists i: nat :: Run(h, i, Rising) && Last(h).at - h[i].at >= RECOVERY_MS
  {
    if Last(h).Sample? {
      RecoveryHistory(Init(h));
      ReplayWellFormed(Init(h));
      RecoveryStep(h);
      if exists i: nat :: Run(h, i, Rising) && Last(h).at - h[i].at >= RECOVERY_MS {
        var i: nat :| Run(h, i, Rising) && Last(h).at - h[i].at >= RECOVERY_MS;
        StartIsLongest(h, Rising, i);
        RunIsOrdered(h, Start(h, Rising).value, i, Rising);
      }
    }
  }

  lemma {:induction false} RunIsOrdered(h: History, s: nat, i: nat, band: Band)
    requires Timed(h) && Run(h, s, band) && s <= i < |h|
    ensures h[s].at <= h[i].at
  {
    if s < |h| - 1 {
      assert Run(Init(h), s, band);
      if i < |h| - 1 {
        RunIsOrdered(Init(h), s, i, band);
      } else {
        RunIsOrdered(Init(h), s, i - 1, band);
        assert LastAt(Init(h)) == Some(h[i - 1].at);
      }
    }
  }

  /** How often the latch has been released. */
  function Releases(h: History): nat {
    if h == [] then 0 else Releases(Init(h)) + if JustReleased(h) then 1 else 0
  }

  lemma StepCounts(p: Policy, o: Obs)
    ensures Step(p, o).latch.releases ==
            if p.latch.held && !Step(p, o).latch.held then (p.latch.releases + 1) % WRAP else p.latch.releases
  {
  }

  lemma {:induction false} RecoveriesAreCounted(h: History)
    ensures Replay(h).latch.releases == Wrap(Releases(h))
  {
    hide Step;
    if h != [] {
      RecoveriesAreCounted(Init(h));
      StepCounts(Replay(Init(h)), Last(h));
      var n := Releases(Init(h));
      assert (Wrap(n) + 1) % WRAP == Wrap(n + 1);
    }
  }

  /** Sample k carries a low stretch on: it is usable, at most two seconds after another
      sample, and low unless it was taken under the held latch. */
  predicate Carries(h: History, k: nat)
    requires k < |h|
  {
    && 0 < k && h[k - 1].Sample? && h[k].Sample? && Usable(h[k].voltage, h[k].ok)
    && h[k].at - h[k - 1].at <= MAX_SAMPLE_GAP_MS
    && (!Held(h[..k]) ==> In(Falling, h[k]))
  }

  /** From the low sample j, taken with the latch free, the stretch reaches to the end. */
  predicate LowFrom(h: History, j: nat) {
    j < |h| && In(Falling, h[j]) && !Held(h[..j]) && forall k :: j < k < |h| ==> Carries(h, k)
  }

  /** The earliest such sample. */
  function LowSince(h: History): (r: Option<nat>)
    ensures r.Some? ==> r.value < |h| && In(Falling, h[r.value])
  {
    if h == [] || !Last(h).Sample? || !Usable(Last(h).voltage, Last(h).ok) then None
    else
      var linked := |h| > 1 && h[|h| - 2].Sample? && Last(h).at - h[|h| - 2].at <= MAX_SAMPLE_GAP_MS;
      var earlier := if linked then LowSince(Init(h)) else None;
      if Held(Init(h)) then earlier
      else if !In(Falling, Last(h)) then None
      else if earlier.Some? then earlier
      else Some(|h| - 1)
  }

  lemma {:induction false} LowSinceHolds(h: History)
    requires LowSince(h).Some?
    ensures LowFrom(h, LowSince(h).value)
  {
    hide Replay;
    var j, n := LowSince(h).value, |h| - 1;
    assert h[..n] == Init(h);
    if j < n {
      LowSinceHolds(Init(h));
      assert h[..j] == Init(h)[..j];
      forall k | j < k < |h| ensures Carries(h, k) {
        if k < n { assert Carries(Init(h), k) && h[..k] == Init(h)[..k]; }
      }
    }
  }

  lemma {:induction false} LowSinceIsEarliest(h: History, i: nat)
    requires LowFrom(h, i)
    ensures LowSince(h).Some? && LowSince(h).value <= i
  {
    hide Replay;
    var n := |h| - 1;
    assert h[..n] == Init(h);
    if i < n {
      assert Carries(h, n);
      forall k | i < k < n ensures Carries(Init(h), k) {
        assert Carries(h, k) && h[..k] == Init(h)[..k];
      }
      assert h[..i] == Init(h)[..i];
      LowSinceIsEarliest(Init(h), i);
    }
  }

  predicate LowTimer(h: History) {
    var low := Replay(h).latch.low;
    (low.on <==> LowSince(h).Some?) && (low.on ==> low.at == Wrap(h[LowSince(h).value].at))
  }

  /** The low timer of a sample as it leaves the entry test. */
  lemma LowStep(h: History)
    requires Timed(h) && h != [] && Last(h).Sample? && LowTimer(Init(h))
    ensures LowTimer(h)
    ensures !Held(Init(h)) ==>
              (Held(h) <==> LowSince(h).Some? &&
                            Since(Wrap(Last(h).at), Wrap(h[LowSince(h).value].at)) >= LATCH_MS)
  {
    hide Replay, Cutoff;
    GapIsReal(h);
    LatchAfterSample(h);
    if |h| > 1 && LowSince(Init(h)).Some? {
      LinkedSample(h);
      assert Init(h)[LowSince(Init(h)).value] == h[LowSince(Init(h)).value];
    }
  }

  lemma LinkedSample(h: History)
    requires |h| > 1 && LowSince(Init(h)).Some?
    ensures h[|h| - 2].Sample? && LastAt(Init(h)) == Some(h[|h| - 2].at)
  {
    assert Last(Init(h)) == h[|h| - 2];
  }

  lemma {:induction false} LowHistory(h: History)
    requires Timed(h)
    ensures LowTimer(h)
  {
    if h != [] {
      LowHistory(Init(h));
      if Last(h).Sample? { LowStep(h); }
    }
  }

  lemma {:induction false} LowIsInOrder(h: History)
    requires Timed(h) && LowSince(h).Some?
    ensures Last(h).Sample? && h[LowSince(h).value].Sample? && h[LowSince(h).value].at <= Last(h).at
  {
    hide Replay;
    if LowSince(h).value < |h| - 1 {
      LowIsInOrder(Init(h));
      LinkedSample(h);
    }
  }

  /** Real time modulo the counter. */
  /** A sample that finds the latch free sets it exactly when it is low and its low
      stretch has lasted 3 s, counted modulo 2^32. The stretch passes over samples taken
      under an earlier held latch, so right after a release it may be long already. */
  lemma EntryExact(h: History)
    requires Timed(h) && h != [] && Last(h).Sample? && !Held(Init(h))
    ensures Held(h) <==> LowSince(h).Some? && Counted(Last(h).at - h[LowSince(h).value].at) >= LATCH_MS
    ensures LowSince(h).Some? ==> In(Falling, Last(h))
  {
    hide Replay, LowFrom;
    LowHistory(Init(h));
    LowStep(h);
    if LowSince(h).Some? {
      LowIsInOrder(h);
      SinceIsElapsed(Last(h).at, h[LowSince(h).value].at);
    }
  }

  /** A low sample does not release the latch. */
  lemma LowKeepsLatch(h: History)
    requires Timed(h) && h != [] && In(Falling, Last(h)) && Held(Init(h))
    ensures Held(h)
  {
    hide Replay;
    assert !In(Rising, h[|h| - 1]);
    ReleaseExact(h);
  }

  /** With the latch free to its end, a low run is measured whole. */
  lemma {:induction false} FreeRunMeasured(h: History, i: nat)
    requires Timed(h) && Run(h, i, Falling) && !Held(Init(h))
    ensures LowSince(h).Some? && Counted(Last(h).at - h[LowSince(h).value].at) >= Last(h).at - h[i].at
  {
    hide Replay, LowFrom;
    var n := |h| - 1;
    if i < n {
      assert In(Falling, Last(Init(h))) && Run(Init(h), i, Falling);
      if Held(Init(Init(h))) { LowKeepsLatch(Init(h)); }
      FreeRunMeasured(Init(h), i);
      EntryExact(Init(h));
      LinkedSample(h);
      var j := LowSince(h).value;
      assert j == LowSince(Init(h)).value && Init(h)[j] == h[j];
      AddsUp(h[n - 1].at - h[j].at, h[n].at - h[n - 1].at);
    } else {
      LowIsInOrder(h);
    }
  }

  lemma AddsUp(a: int, d: nat)
    requires Counted(a) < LATCH_MS && d <= MAX_SAMPLE_GAP_MS
    ensures Counted(a + d) == Counted(a) + d
  {
    assert a + d == a / WRAP * WRAP + (Counted(a) + d);
    UniqueRest(a + d, a / WRAP, Counted(a) + d);
  }

  lemma UniqueRest(n: int, q: int, r: u32)
    requires n == q * WRAP + r
    ensures Counted(n) == r
  {
  }

  lemma {:induction false} FreeSinceRun(h: History, i: nat)
    requires Timed(h) && Run(h, i, Falling) && !Held(Init(h))
    ensures !Held(h[..i])
  {
    hide Replay;
    if i < |h| - 1 {
      assert In(Falling, Last(Init(h))) && Run(Init(h), i, Falling);
      if Held(Init(Init(h))) { LowKeepsLatch(Init(h)); }
      FreeSinceRun(Init(h), i);
      assert Init(h)[..i] == h[..i];
    } else {
      assert h[..i] == Init(h);
    }
  }

  /** The low stretch is just the latest low run, unless that run follows a release
      without a gap. Then, and only then, 3 s of real time in the run are not needed. */
  lemma PlainEntry(h: History)
    requires Timed(h) && h != [] && Last(h).Sample? && !Held(Init(h)) && Start(h, Falling).Some?
    ensures
      var i := Start(h, Falling).value;
      && LowSince(h).Some? && LowSince(h).value <= i
      && (LowSince(h).value == i ==> (Held(h) <==> Last(h).at - h[i].at >= LATCH_MS))
      && (LowSince(h).value < i ==> JustReleased(h[..i]) && h[i].at - h[i - 1].at <= MAX_SAMPLE_GAP_MS)
  {
    hide Replay;
    var i := Start(h, Falling).value;
    RunIsLow(h, i);
    LowSinceIsEarliest(h, i);
    EntryExact(h);
    FreeRunMeasured(h, i);
    RunIsOrdered(h, i, |h| - 1, Falling);
    var j := LowSince(h).value;
    if j == i {
      assert Counted(Last(h).at - h[i].at) <= Last(h).at - h[i].at;
    } else {
      LowSinceHolds(h);
      assert Carries(h, i);
      BeforeTheRun(h, i);
      assert j < i - 1 && Carries(h, i - 1);
      assert h[..i][..i - 1] == h[..i - 1];
      FreeSinceRun(h, i);
    }
  }

  lemma RunIsLow(h: History, i: nat)
    requires Timed(h) && h != [] && !Held(Init(h)) && Run(h, i, Falling)
    ensures LowFrom(h, i)
  {
    hide Replay;
    FreeSinceRun(h, i);
    forall k | i < k < |h| ensures Carries(h, k) {
      assert In(Falling, h[k]) && In(Falling, h[k - 1]);
    }
  }

  lemma BeforeTheRun(h: History, i: nat)
    requires Start(h, Falling) == Some(i) && 0 < i && h[i - 1].Sample?
    requires h[i].at - h[i - 1].at <= MAX_SAMPLE_GAP_MS
    ensures !In(Falling, h[i - 1])
  {
    if In(Falling, h[i - 1]) {
      assert Run(h, i - 1, Falling);
      StartIsLongest(h, Falling, i - 1);
    }
  }

  /** Three seconds of low samples always end with the latch held ... */
  lemma LowRunLatches(h: History, i: nat)
    requires Timed(h) && Run(h, i, Falling) && Last(h).at - h[i].at >= LATCH_MS
    ensures Held(h)
  {
    hide Replay;
    assert In(Falling, h[|h| - 1]);
    if Held(Init(h)) {
      LowKeepsLatch(h);
    } else {
      FreeRunMeasured(h, i);
      EntryExact(h);
    }
  }

  /** ... but right after a release one low sample can be enough. This battery is low
      for 3 s, recovers, and is released after 300 s; n counts the rising samples. */
  function Relapse(n: nat): (h: History)
    ensures |h| == n + 3 && Last(h).Sample? && Last(h).at == 3000 + 2000 * n
  {
    if n == 0 then
      [Sample(0, Fin(10.5), true, Fin(11.0)), Sample(1500, Fin(10.5), true, Fin(11.0)),
       Sample(3000, Fin(10.5), true, Fin(11.0))]
    else Relapse(n - 1) + [Sample(3000 + 2000 * n, Fin(12.5), true, Fin(11.0))]
  }

  lemma RelapseBegins()
    ensures Timed(Relapse(0))
    ensures Replay(Relapse(0)).sampled && Replay(Relapse(0)).sampleAt == 3000
    ensures Replay(Relapse(0)).latch == Latch(true, Timer(true, 0), IDLE_TIMER, 0)
  {
    var a, b, c := Relapse(0)[..1], Relapse(0)[..2], Relapse(0);
    assert Init(a) == [] && Init(b) == a && Init(c) == b;
    assert Replay(a).latch == Latch(false, Timer(true, 0), IDLE_TIMER, 0) && Replay(a).sampleAt == 0;
    assert Replay(b).latch == Latch(false, Timer(true, 0), IDLE_TIMER, 0) && Replay(b).sampleAt == 1500;
  }

  lemma {:induction false} RelapseLatch(n: nat)
    requires n <= 151
    ensures Timed(Relapse(n))
    ensures
      var p := Replay(Relapse(n));
      && p.sampled && p.sampleAt == 3000 + 2000 * n
      && p.latch.held == (n <= 150) && p.latch.low == Timer(true, 0)
      && (1 <= n <= 150 ==> p.latch.recovery == Timer(true, 5000))
      && (n == 0 ==> !p.latch.recovery.on)
  {
    hide Step;
    if n == 0 {
      RelapseBegins();
    } else {
      RelapseLatch(n - 1);
      var h := Relapse(n);
      assert Init(h) == Relapse(n - 1);
      SampleClock(h);
      LatchAfterSample(h);
    }
  }

  lemma OneSampleRelatches(n: nat)
    requires n == 151
    ensures
      var h := Relapse(n);
      var h' := h + [Sample(3000 + 2000 * (n + 1), Fin(10.5), true, Fin(11.0))];
      JustReleased(h) && Timed(h') && Held(h')
  {
    hide Step;
    RelapseLatch(n);
    RelapseLatch(n - 1);
    var h := Relapse(n);
    var h' := h + [Sample(3000 + 2000 * (n + 1), Fin(10.5), true, Fin(11.0))];
    assert Init(h) == Relapse(n - 1);
    assert Init(h') == h;
    LatchAfterSample(h');
  }

  // ---- Which limits make sense ----

  /** What a configured limit stands for: the limit itself from above 0 to below 25 V, else
      11.0 V. The force floor is 0.3 V below the recovery voltage, which is 12.0 V up to a
      cutoff of 11.3 V and 0.7 V above the cutoff beyond. */
  lemma LimitsMean(limit: Float)
    ensures
      var c, r := Cutoff(limit), RecoveryVoltage(limit);
      && (limit.Fin? && 0.0 < limit.r < 25.0 ==> c == limit.r)
      && (!(limit.Fin? && 0.0 < limit.r < 25.0) ==> c == 11.0)
      && ForceFloor(limit) == r - 0.3 && r == (if c <= 11.3 then 12.0 else c + 0.7)
      && (r <= MAX_VOLTAGE <==> c <= 15.3)
  {
  }

  predicate HighLimits(h: History) {
    forall k :: 0 <= k < |h| && h[k].Sample? ==> Cutoff(h[k].limit) > 15.3
  }

  /** With a cutoff above 15.3 V no usable reading reaches the recovery voltage: a latch
      that is held stays held. */
  lemma {:induction false} HighLimitsHold(h: History, more: History)
    requires Timed(h + more) && Held(h) && HighLimits(more)
    ensures Held(h + more)
    decreases |more|
  {
    if more == [] {
      assert h + more == h;
    } else {
      var all, before := h + more, h + Init(more);
      assert Init(all) == before && Last(all) == Last(more);
      HighLimitsHold(h, Init(more));
      ReleaseExact(all);
      if Last(all).Sample? {
        assert more[|more| - 1].Sample?;
        LimitsMean(Last(all).limit);
      }
    }
  }
}
