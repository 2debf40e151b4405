/** When the displayed battery state changes. */
module BatteryDisplay {
  import opened Numeric
  import opened BatteryPolicy
  import opened BatteryHistory
  import opened BatteryLatch

  function OnDisplay(h: History): BatteryState {
    Replay(h).display.state
  }

  /** The state a usable voltage stands for while x is displayed. A voltage has to leave
      a band by 0.1 V to lose it. */
  function Wanted(x: BatteryState, o: Obs): BatteryState
    requires o.Sample? && Usable(o.voltage, o.ok)
  {
    var v, cutoff := o.voltage.r, Cutoff(o.limit);
    if v < cutoff + 0.4 || (x == Saving && v < cutoff + 0.5) then Saving
    else if v < cutoff + 0.7 || (x == Warning && v < cutoff + 0.8) then Warning
    else Normal
  }

  predicate Settled(x: BatteryState) {
    x != Unknown && x != SensorFault
  }

  /** A usable sample that leaves the latch free and speaks for another state than the
      one it finds displayed. */
  predicate Asks(h: History)
    requires h != []
  {
    && Last(h).Sample? && Usable(Last(h).voltage, Last(h).ok) && !Held(h)
    && Settled(OnDisplay(Init(h))) && Wanted(OnDisplay(Init(h)), Last(h)) != OnDisplay(Init(h))
  }

  /** The latest sample asks what the one before asked, of the same display, in time. */
  predicate Repeats(h: History)
    requires h != [] && Asks(h)
  {
    |h| > 1 && Asks(Init(h)) && Last(h).at - Last(Init(h)).at <= MAX_SAMPLE_GAP_MS &&
    var x := OnDisplay(Init(h));
    x == OnDisplay(Init(Init(h))) && Wanted(x, Last(h)) == Wanted(x, Last(Init(h)))
  }

  /** Since which sample every sample has asked the same. */
  function AskedSince(h: History): (r: Option<nat>)
    ensures r.Some? ==> r.value < |h| && h[r.value].Sample?
  {
    if h == [] || !Asks(h) then None
    else if Repeats(h) && AskedSince(Init(h)).Some? then AskedSince(Init(h))
    else Some(|h| - 1)
  }

  lemma {:induction false} AskedSinceMeans(h: History, k: nat)
    requires AskedSince(h).Some? && AskedSince(h).value <= k < |h|
    ensures
      var x := OnDisplay(Init(h));
      && Asks(h[..k + 1]) && OnDisplay(h[..k]) == x && Wanted(x, h[k]) == Wanted(x, Last(h))
      && (k > AskedSince(h).value ==> h[k - 1].Sample? && h[k].at - h[k - 1].at <= MAX_SAMPLE_GAP_MS)
  {
    hide Replay;
    if k < |h| - 1 {
      AskedSinceMeans(Init(h), k);
      assert Init(h)[..k + 1] == h[..k + 1] && Init(h)[..k] == h[..k];
    } else {
      assert h[..k + 1] == h && h[..k] == Init(h);
    }
  }

  /** The timer of a change not yet made. */
  predicate PendingTells(h: History) {
    var d := Replay(h).display;
    && (d.pending.on <==> AskedSince(h).Some? && d.state == OnDisplay(Init0(h)))
    && (d.pending.on ==> d.pending.at == Wrap(h[AskedSince(h).value].at) && d.candidate == Wanted(d.state, Last(h)))
  }

  function Init0(h: History): History {
    if h == [] then [] else Init(h)
  }

  /** What one usable sample does to the display. */
  lemma DisplayAfterSample(h: History)
    requires h != [] && Last(h).Sample? && Usable(Last(h).voltage, Last(h).ok)
    ensures
      var o, d := Last(h), Replay(Init(h)).display;
      var cutoff := Cutoff(o.limit);
      Replay(h).display == Shown(d.(pending := d.pending.StopIf(Broken(h))), Held(h), Held(h) != Held(Init(h)),
                                 Wrap(o.at), o.voltage.r, cutoff, RecoveryVoltage(o.limit))
  {
    hide LatchStep;
  }

  lemma ShownMeans(d: Display, changed: bool, o: Obs)
    requires o.Sample? && Usable(o.voltage, o.ok) && Settled(d.state)
    ensures
      var d' := Shown(d, false, changed, Wrap(o.at), o.voltage.r, Cutoff(o.limit), RecoveryVoltage(o.limit));
      var want, pending := Wanted(d.state, o), d.pending.StopIf(changed);
      if want == d.state then d'.state == want && !d'.pending.on
      else if !pending.on || d.candidate != want then d' == Display(d.state, want, Timer(true, Wrap(o.at)))
      else if Since(Wrap(o.at), pending.at) >= STATE_DWELL_MS then d'.state == want && !d'.pending.on
      else d' == Display(d.state, want, pending)
  {
    hide Cutoff;
  }

  /** Without a settled display, or under the latch, no change is waited for. */
  lemma NothingPends(h: History)
    requires h != [] && Last(h).Sample? && PendingTells(Init(h))
    requires !Usable(Last(h).voltage, Last(h).ok) || Held(h) || !Settled(OnDisplay(Init(h)))
    ensures !Replay(h).display.pending.on
  {
    hide Replay, LatchStep, Cutoff, RecoveryVoltage;
    if Usable(Last(h).voltage, Last(h).ok) {
      DisplayAfterSample(h);
      if Held(Init(h)) { HeldDoesNotAsk(Init(h)); }
    } else {
      FaultStops(h);
    }
  }

  lemma HeldDoesNotAsk(h: History)
    requires Held(h)
    ensures AskedSince(h).None?
  {
  }

  lemma FaultStops(h: History)
    requires h != [] && Last(h).Sample? && !Usable(Last(h).voltage, Last(h).ok)
    ensures !Replay(h).display.pending.on
  {
  }

  lemma PendingStep(h: History)
    requires Timed(h) && h != [] && Last(h).Sample? && PendingTells(Init(h))
    ensures PendingTells(h)
    ensures Usable(Last(h).voltage, Last(h).ok) && !Held(h) && Settled(OnDisplay(Init(h))) ==>
              && (OnDisplay(h) != OnDisplay(Init(h)) <==>
                    AskedSince(h).Some? && Since(Wrap(Last(h).at), Wrap(h[AskedSince(h).value].at)) >= STATE_DWELL_MS)
              && (OnDisplay(h) != OnDisplay(Init(h)) ==> OnDisplay(h) == Wanted(OnDisplay(Init(h)), Last(h)))
  {
    hide Replay, Shown, Cutoff, RecoveryVoltage, Wanted;
    GapIsReal(h);
    if Usable(Last(h).voltage, Last(h).ok) && !Held(h) && Settled(OnDisplay(Init(h))) {
      DisplayAfterSample(h);
      var d := Replay(Init(h)).display;
      ShownMeans(d.(pending := d.pending.StopIf(Broken(h))), Held(h) != Held(Init(h)), Last(h));
      SinceIsElapsed(Last(h).at, Last(h).at);
      if Asks(h) { AskedContinues(h); }
    } else {
      NothingPends(h);
    }
  }

  /** The pending timer as the sample finds it, if it goes on with the same question. */
  lemma AskedContinues(h: History)
    requires Timed(h) && h != [] && Last(h).Sample? && Asks(h) && PendingTells(Init(h))
    ensures
      var d := Replay(Init(h)).display;
      var x := OnDisplay(Init(h));
      var open := d.pending.on && !Broken(h) && !Held(Init(h)) && d.candidate == Wanted(x, Last(h));
      && (open <==> Repeats(h) && AskedSince(Init(h)).Some?)
      && (open ==> d.pending.at == Wrap(h[AskedSince(h).value].at))
  {
    hide Replay, Cutoff, Wanted;
    GapIsReal(h);
    if |h| > 1 && Last(Init(h)).Sample? { assert LastAt(Init(h)) == Some(Last(Init(h)).at); }
    if Held(Init(h)) { HeldDoesNotAsk(Init(h)); }
  }

  lemma {:induction false} DisplayHistory(h: History)
    requires Timed(h)
    ensures PendingTells(h)
  {
    hide Replay;
    if h != [] {
      DisplayHistory(Init(h));
      if Last(h).Sample? { PendingStep(h); } else { RestoreStops(h); }
    } else {
      NothingYet(h);
    }
  }

  lemma NothingYet(h: History)
    requires h == []
    ensures PendingTells(h)
  {
  }

  lemma RestoreStops(h: History)
    requires h != [] && Last(h).Restore?
    ensures !Replay(h).display.pending.on
  {
  }

  lemma {:induction false} AskedIsInOrder(h: History)
    requires Timed(h) && AskedSince(h).Some?
    ensures Last(h).Sample? && h[AskedSince(h).value].at <= Last(h).at
  {
    hide Replay;
    if AskedSince(h).value < |h| - 1 {
      AskedIsInOrder(Init(h));
      assert LastAt(Init(h)) == Some(Last(Init(h)).at);
    }
  }

  /** With the latch free, a settled display changes exactly when every sample for 15 s,
      counted modulo 2^32, has asked for the same other state, and then to that state. */
  lemma DisplayChangesExactly(h: History)
    requires Timed(h) && h != [] && Last(h).Sample? && Usable(Last(h).voltage, Last(h).ok)
    requires !Held(h) && Settled(OnDisplay(Init(h)))
    ensures OnDisplay(h) != OnDisplay(Init(h)) <==>
            AskedSince(h).Some? && Counted(Last(h).at - h[AskedSince(h).value].at) >= STATE_DWELL_MS
    ensures OnDisplay(h) != OnDisplay(Init(h)) ==> OnDisplay(h) == Wanted(OnDisplay(Init(h)), Last(h))
  {
    hide Replay, Asks;
    DisplayHistory(Init(h));
    PendingStep(h);
    if AskedSince(h).Some? {
      AskedIsInOrder(h);
      SinceIsElapsed(Last(h).at, h[AskedSince(h).value].at);
    }
  }

  /** In real time: no change without 15 s of samples that all ask for it, and none put
      off beyond them, as long as they have asked for less than one turn of the counter. */
  lemma DisplayDwell(h: History)
    requires Timed(h) && h != [] && Last(h).Sample? && Usable(Last(h).voltage, Last(h).ok)
    requires !Held(h) && Settled(OnDisplay(Init(h)))
    ensures OnDisplay(h) != OnDisplay(Init(h)) ==>
              AskedSince(h).Some? && Last(h).at - h[AskedSince(h).value].at >= STATE_DWELL_MS
    ensures AskedSince(h).Some? && STATE_DWELL_MS <= Last(h).at - h[AskedSince(h).value].at < WRAP ==>
              OnDisplay(h) != OnDisplay(Init(h))
  {
    hide Replay, Asks, AskedSince;
    DisplayChangesExactly(h);
    if AskedSince(h).Some? { AskedIsInOrder(h); }
  }

  /** In every other case the display follows at once: a fault, the latch, or after a fault
      or at the start the state of the voltage itself. */
  lemma DisplayOtherwise(h: History)
    requires h != [] && Last(h).Sample?
    requires !Usable(Last(h).voltage, Last(h).ok) || Held(h) || !Settled(OnDisplay(Init(h)))
    ensures
      var o := Last(h);
      OnDisplay(h) ==
      if !Usable(o.voltage, o.ok) then SensorFault
      else if Held(h) then if o.voltage.r >= RecoveryVoltage(o.limit) then Recovering else Protected
      else Wanted(Unknown, o)
  {
    hide LatchStep, Replay;
    if Usable(Last(h).voltage, Last(h).ok) { DisplayAfterSample(h); } else { FaultIsShown(h); }
  }

  lemma FaultIsShown(h: History)
    requires h != [] && Last(h).Sample? && !Usable(Last(h).voltage, Last(h).ok)
    ensures OnDisplay(h) == SensorFault
  {
  }
}
