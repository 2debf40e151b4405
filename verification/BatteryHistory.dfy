/** What the battery policy has seen, in real time, and what its timers and its
    latch therefore mean. Histories are unbounded: the 32-bit counter may wrap any
    number of times. */
module BatteryHistory {
  import opened Numeric
  import opened BatteryPolicy

  /** One thing that happens to a policy. Restoring protection takes no time stamp. */
  datatype Obs = Sample(at: nat, voltage: Float, ok: bool, limit: Float) | Restore

  type History = seq<Obs>

  function Init(h: History): History
    requires h != []
  {
    h[..|h| - 1]
  }

  function Last(h: History): Obs
    requires h != []
  {
    h[|h| - 1]
  }

  function Step(p: Policy, o: Obs): Policy {
    match o
    case Restore => Restored(p)
    case Sample(at, voltage, ok, limit) => Sampled(p, Wrap(at), voltage, ok, limit)
  }

  /** The policy after a history, from power-on. */
  function Replay(h: History): Policy {
    if h == [] then INITIAL else Step(Replay(Init(h)), Last(h))
  }

  lemma ReplayGrows(h: History, o: Obs)
    ensures Replay(h + [o]) == Step(Replay(h), o)
  {
    assert Init(h + [o]) == h;
  }

  /** When the latest sample was taken. */
  function LastAt(h: History): Option<nat> {
    if h == [] then None
    else if Last(h).Sample? then Some(Last(h).at)
    else LastAt(Init(h))
  }

  /** Time does not run backwards, and two successive samples are less than one
      whole turn of the counter apart. */
  predicate Timed(h: History) {
    h != [] ==>
      && Timed(Init(h))
      && (Last(h).Sample? && LastAt(Init(h)).Some? ==>
            LastAt(Init(h)).value <= Last(h).at < LastAt(Init(h)).value + WRAP)
  }

  /** A moment at which the policy may be asked, by the same rule. */
  predicate AskedAt(h: History, now: nat) {
    LastAt(h).Some? ==> LastAt(h).value <= now < LastAt(h).value + WRAP
  }

  datatype Band = Rising | Forced | Falling | Warned

  /** A usable sample inside a voltage band. The first three bands depend on the
      limit configured when the sample was taken. */
  predicate In(band: Band, o: Obs) {
    o.Sample? && Usable(o.voltage, o.ok) &&
    match band
    case Rising => o.voltage.r >= RecoveryVoltage(o.limit)
    case Forced => o.voltage.r >= ForceFloor(o.limit)
    case Falling => o.voltage.r <= Cutoff(o.limit)
    case Warned => o.voltage.r <= LOW_WARNING_VOLTAGE
  }

  /** From index i to the end there are only samples inside the band, each at most
      two seconds after the one before. */
  predicate Run(h: History, i: nat, band: Band) {
    && i < |h|
    && (forall k :: i <= k < |h| ==> In(band, h[k]))
    && (forall k :: i < k < |h| ==> h[k].at - h[k - 1].at <= MAX_SAMPLE_GAP_MS)
  }

  /** The longest such run. */
  function Start(h: History, band: Band): (r: Option<nat>)
    ensures r.Some? ==> Run(h, r.value, band)
  {
    if h == [] || !In(band, Last(h)) then None
    else
      var earlier := Start(Init(h), band);
      if earlier.Some? && Last(h).at - h[|h| - 2].at <= MAX_SAMPLE_GAP_MS then earlier
      else Some(|h| - 1)
  }

  lemma {:induction false} StartIsLongest(h: History, band: Band, i: nat)
    requires Run(h, i, band)
    ensures Start(h, band).Some? && Start(h, band).value <= i
  {
    if i < |h| - 1 {
      assert Run(Init(h), i, band);
      StartIsLongest(Init(h), band, i);
    }
  }

  predicate Tells(t: Timer, h: History, band: Band) {
    && (t.on <==> Start(h, band).Some?)
    && (t.on ==> t.at == Wrap(h[Start(h, band).value].at))
  }

  lemma {:induction false} SampleClock(h: History)
    requires Timed(h)
    ensures Replay(h).sampled <==> LastAt(h).Some?
    ensures LastAt(h).Some? ==> Replay(h).sampleAt == Wrap(LastAt(h).value)
  {
    if h != [] { SampleClock(Init(h)); }
  }

  /** The u32 gap test is the real one. */
  lemma GapIsReal(h: History)
    requires Timed(h) && h != [] && Last(h).Sample?
    ensures Gap(Replay(Init(h)), Wrap(Last(h).at)) <==>
            LastAt(Init(h)).Some? && Last(h).at - LastAt(Init(h)).value > MAX_SAMPLE_GAP_MS
  {
    SampleClock(Init(h));
    if LastAt(Init(h)).Some? { SinceIsElapsed(Last(h).at, LastAt(Init(h)).value); }
  }

  /** One dwell timer over one more sample. */
  lemma DwellTells(t: Timer, h: History, band: Band, broken: bool)
    requires h != [] && Last(h).Sample? && Tells(t, Init(h), band)
    requires broken <==>
             (LastAt(Init(h)).Some? && Last(h).at - LastAt(Init(h)).value > MAX_SAMPLE_GAP_MS) ||
             !Usable(Last(h).voltage, Last(h).ok)
    ensures
      var o := Last(h);
      Tells(if Usable(o.voltage, o.ok) then t.StopIf(broken).Dwell(In(band, o), Wrap(o.at)) else t.Stop(), h, band)
  {
    var s := Start(Init(h), band);
    if s.Some? {
      assert LastAt(Init(h)) == Some(h[|h| - 2].at);
      assert h[s.value] == Init(h)[s.value];
    }
  }

  predicate Broken(h: History)
    requires h != [] && Last(h).Sample?
  {
    Gap(Replay(Init(h)), Wrap(Last(h).at)) || !Usable(Last(h).voltage, Last(h).ok)
  }

  lemma {:induction false} StandingTimers(h: History)
    requires Timed(h)
    ensures Tells(Replay(h).healthy, h, Rising)
    ensures Tells(Replay(h).force, h, Forced)
  {
    if h != [] {
      StandingTimers(Init(h));
      if Last(h).Sample? {
        GapIsReal(h);
        DwellTells(Replay(Init(h)).healthy, h, Rising, Broken(h));
        DwellTells(Replay(Init(h)).force, h, Forced, Broken(h));
      }
    }
  }

  function SamplesOnly(h: History): History {
    if h == [] then []
    else if Last(h).Sample? then SamplesOnly(Init(h)) + [Last(h)]
    else SamplesOnly(Init(h))
  }

  lemma {:induction false} SamplesOnlyKeepsTime(h: History)
    ensures LastAt(SamplesOnly(h)) == LastAt(h)
    ensures Timed(h) ==> Timed(SamplesOnly(h))
    ensures forall k :: 0 <= k < |SamplesOnly(h)| ==> SamplesOnly(h)[k].Sample?
  {
    if h != [] {
      SamplesOnlyKeepsTime(Init(h));
      if Last(h).Sample? {
        assert Init(SamplesOnly(h)) == SamplesOnly(Init(h));
      }
    }
  }

  /** Restoring protection any number of times, anywhere, leaves the owner warning as it is. */
  lemma {:induction false} RestoreNeverDisturbsWarning(h: History, now: u32)
    ensures
      var with, without := Replay(h), Replay(SamplesOnly(h));
      && with.warning == without.warning
      && with.sampled == without.sampled && with.sampleAt == without.sampleAt
      && with.valid == without.valid && with.voltage == without.voltage
      && TakeSnapshot(with, now).lowWarning == TakeSnapshot(without, now).lowWarning
      && TakeSnapshot(with, now).lowWarningElapsedMs == TakeSnapshot(without, now).lowWarningElapsedMs
  {
    if h != [] {
      RestoreNeverDisturbsWarning(Init(h), now);
      if Last(h).Sample? {
        assert Init(SamplesOnly(h)) == SamplesOnly(Init(h));
      }
    }
  }

  lemma {:induction false} WarningTimer(h: History)
    requires Timed(h) && forall k :: 0 <= k < |h| ==> h[k].Sample?
    ensures Tells(Replay(h).warning, h, Warned)
  {
    if h != [] {
      WarningTimer(Init(h));
      GapIsReal(h);
      DwellTells(Replay(Init(h)).warning, h, Warned, Broken(h));
    }
  }

  lemma {:induction false} ReplayWellFormed(h: History)
    ensures WellFormed(Replay(h))
  {
    if h != [] {
      ReplayWellFormed(Init(h));
      if Last(h).Sample? {
        StepsKeepWellFormed(Replay(Init(h)), Wrap(Last(h).at), Last(h).voltage, Last(h).ok, Last(h).limit);
      } else {
        StepsKeepWellFormed(Replay(Init(h)), 0, NaN, false, NaN);
      }
    }
  }
}
