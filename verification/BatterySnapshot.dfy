/** What a snapshot of the battery policy says, told from its history: when the motor is
    admitted, whether there is a reading, and how long a recovery still takes. */
module BatterySnapshot {
  import opened Numeric
  import opened BatteryPolicy
  import opened BatteryHistory
  import opened BatteryLatch
  import opened BatteryDisplay

  /** The last voltage that was read as valid, finite and above zero, whether usable or not. */
  function Reported(h: History): Option<real> {
    if h == [] then None
    else if Last(h).Sample? && Last(h).ok && Last(h).voltage.Fin? && Last(h).voltage.r > 0.0 then Some(Last(h).voltage.r)
    else Reported(Init(h))
  }

  /** The cutoff of the latest sample. */
  function CutoffInForce(h: History): real {
    if h == [] then DEFAULT_CUTOFF
    else if Last(h).Sample? then Cutoff(Last(h).limit)
    else CutoffInForce(Init(h))
  }

  /** The latch is free, and no reported voltage speaks against moving. */
  predicate Admits(h: History) {
    && !Held(h)
    && (Reported(h).Some? ==> CutoffInForce(h) < Reported(h).value <= MAX_VOLTAGE)
  }

  lemma {:induction false} AdmissionFields(h: History)
    ensures
      var p := Replay(h);
      && p.cutoff == CutoffInForce(h) && (p.admissionKnown <==> Reported(h).Some?)
      && (p.admissionKnown ==> p.admissionVoltage == Reported(h).value)
  {
    if h != [] {
      hide LatchStep, Shown, Cutoff, RecoveryVoltage, ForceFloor;
      AdmissionFields(Init(h));
    }
  }

  /** Over any history and at any counter value, actuation is allowed exactly then. */
  lemma AdmissionExactly(h: History, now: u32)
    ensures TakeSnapshot(Replay(h), now).actuationAllowed <==> Admits(h)
  {
    hide Replay;
    AdmissionFields(h);
  }

  // ---- The reading ----

  /** The latest sample, whatever restores came after it. */
  function Newest(h: History): (r: Option<Obs>)
    ensures r.Some? ==> r.value.Sample? && LastAt(h) == Some(r.value.at)
  {
    if h == [] then None else if Last(h).Sample? then Some(Last(h)) else Newest(Init(h))
  }

  /** There is a usable reading, at most two seconds old. */
  predicate Current(h: History, now: nat) {
    var o := Newest(h);
    o.Some? && Usable(o.value.voltage, o.value.ok) && now - o.value.at <= MAX_SAMPLE_GAP_MS
  }

  lemma {:induction false} ReadingFields(h: History)
    ensures
      var p, o := Replay(h), Newest(h);
      && (p.sampled <==> o.Some?) && (p.valid <==> o.Some? && Usable(o.value.voltage, o.value.ok))
      && (o.Some? ==> p.voltage == o.value.voltage)
  {
    if h != [] {
      hide LatchStep, Shown, Cutoff, RecoveryVoltage, ForceFloor;
      ReadingFields(Init(h));
    }
  }

  /** A snapshot is valid exactly on a usable reading at most two seconds old. Its voltage
      is that of the latest reading, its age the real one, and a reading that is not valid
      shows as a sensor fault. The telemetry interval follows from the same. */
  lemma ReadingExactly(h: History, now: nat)
    requires Timed(h) && AskedAt(h, now)
    ensures
      var s, o := TakeSnapshot(Replay(h), Wrap(now)), Newest(h);
      && (s.valid <==> Current(h, now)) && s.protectedMode == Held(h)
      && s.sampleAgeMs == (if o.Some? then now - o.value.at else WRAP - 1)
      && (o.Some? ==> s.voltage == o.value.voltage)
      && s.state == (if o.Some? && !Current(h, now) then SensorFault else OnDisplay(h))
      && s.telemetryIntervalMs == (if Held(h) then 300000 else if !Current(h, now) then 30000
                                   else if OnDisplay(h) == Saving then 120000
                                   else if OnDisplay(h) == Warning then 60000 else 30000)
  {
    hide Replay, Timed;
    ReadingFields(h);
    SampleClock(h);
    if LastAt(h).Some? { SinceIsElapsed(now, LastAt(h).value); }
  }

  /** The least usable voltage so far. */
  function Least(h: History): real {
    if h == [] then 0.0
    else if Last(h).Sample? && Usable(Last(h).voltage, Last(h).ok) && (Least(Init(h)) == 0.0 || Last(h).voltage.r < Least(Init(h)))
    then Last(h).voltage.r
    else Least(Init(h))
  }

  lemma {:induction false} LeastMeans(h: History, k: nat)
    requires k < |h| && h[k].Sample? && Usable(h[k].voltage, h[k].ok)
    ensures 0.0 < Least(h) <= h[k].voltage.r
  {
    if k < |h| - 1 {
      LeastMeans(Init(h), k);
    } else {
      LeastIsVoltage(Init(h));
    }
  }

  lemma {:induction false} LeastIsVoltage(h: History)
    ensures Least(h) == 0.0 || exists k :: 0 <= k < |h| && h[k].Sample? && Usable(h[k].voltage, h[k].ok) && h[k].voltage.r == Least(h)
    ensures Least(h) >= 0.0
  {
    if h != [] {
      LeastIsVoltage(Init(h));
      if Least(Init(h)) != 0.0 {
        var k :| 0 <= k < |h| - 1 && h[k].Sample? && Usable(h[k].voltage, h[k].ok) && h[k].voltage.r == Least(Init(h));
        assert h[k].Sample?;
      }
      if Least(h) != Least(Init(h)) { assert h[|h| - 1].Sample?; }
    }
  }

  lemma {:induction false} LeastIsShown(h: History, now: u32)
    ensures TakeSnapshot(Replay(h), now).minimumVoltage == Least(h)
  {
    if h != [] {
      hide LatchStep, Shown, Cutoff, RecoveryVoltage, ForceFloor;
      LeastIsShown(Init(h), now);
    }
  }

  /** Under the latch the remaining time is what the present run at or above the recovery
      voltage lacks of 300 s; without such a run it is all of them. */
  lemma RemainingExactly(h: History, now: nat)
    requires Timed(h) && AskedAt(h, now) && Held(h)
    requires Start(h, Rising).Some? ==> now - h[Start(h, Rising).value].at < WRAP
    ensures
      var remaining := TakeSnapshot(Replay(h), Wrap(now)).recoveryRemainingMs;
      if Start(h, Rising).None? then remaining == RECOVERY_MS
      else
        var since := now - h[Start(h, Rising).value].at;
        remaining == if since < RECOVERY_MS then RECOVERY_MS - since else 0
  {
    hide Replay, Timed;
    RecoveryHistory(h);
    var i := Start(h, Rising);
    if i.Some? {
      RunIsOrdered(h, i.value, |h| - 1, Rising);
      LastIsLatest(h);
      SinceIsElapsed(now, h[i.value].at);
    }
  }

  lemma LastIsLatest(h: History)
    requires h != [] && Last(h).Sample?
    ensures LastAt(h) == Some(Last(h).at)
  {
  }
}
