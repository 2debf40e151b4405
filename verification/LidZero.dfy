/** Waits and rests that begin at counter value zero, which stands for "not running". */
module LidZero {
  import opened Numeric
  import opened DistanceFilter
  import opened Gpio
  import opened Lid
  import opened LidInvariant
  import opened LidDirections
  import opened LidReactions
  import opened LidSteps
  import opened ZeroTimer

  /** The first two of three visits leave too few near readings, from the third on there
      are enough. */
  lemma VisitsCount()
    ensures
      var one := Pushed(ALL_FAR, 20.0);
      var two := Pushed(one, 20.0);
      var three := Pushed(two, 20.0);
      var four := Pushed(three, 20.0);
      && Nearer(one, 50.0) == 1 && Nearer(two, 50.0) == 2 && Nearer(three, 50.0) == 3 && Nearer(four, 50.0) == 4
      && Within(three, 2.0) == Within(four, 2.0) == 0
  {
    assert Pushed(ALL_FAR, 20.0) == [FAR, FAR, FAR, FAR, 20.0];
    assert Pushed([FAR, FAR, FAR, FAR, 20.0], 20.0) == [FAR, FAR, FAR, 20.0, 20.0];
    assert Pushed([FAR, FAR, FAR, 20.0, 20.0], 20.0) == [FAR, FAR, 20.0, 20.0, 20.0];
    assert Pushed([FAR, FAR, 20.0, 20.0, 20.0], 20.0) == [FAR, 20.0, 20.0, 20.0, 20.0];
    hide Nearer, Within, Pushed;
    CountFive(FAR, FAR, FAR, FAR, 20.0, 50.0);
    CountFive(FAR, FAR, FAR, 20.0, 20.0, 50.0);
    CountFive(FAR, FAR, 20.0, 20.0, 20.0, 50.0);
    CountFive(FAR, 20.0, 20.0, 20.0, 20.0, 50.0);
    CountFive(FAR, FAR, 20.0, 20.0, 20.0, 2.0);
    CountFive(FAR, 20.0, 20.0, 20.0, 20.0, 2.0);
  }

  /** An idle lid that nothing keeps from opening but perhaps its blind time. */
  predicate Waiting(l: Lid, at: nat, w: Window, blind: u32, detect: u32) {
    && Fine(l) && l.state == Idle && l.clock == at && l.sense.window == w && !l.sense.deadlock
    && (l.sense.cooling ==> l.config.cooldownTime == 0)
    && l.sense.blindStart == blind && l.sense.lastDetect == detect && Since(l.Now(), l.sense.sensorTimer) < 400
  }

  /** A visitor `ms` later. */
  lemma Visiting(l: Lid, at: nat, w: Window, blind: u32, detect: u32, ms: nat)
    requires Waiting(l, at, w, blind, detect) && 100 <= ms <= 1000
    ensures
      var l', now := Later(l, ms, Visit()), Wrap(at + ms);
      var w' := Pushed(w, 20.0);
      var look := Look(at + ms, Nearer(w', 50.0) >= 3 && Within(w', 2.0) < 3 && !(blind != 0 && Since(now, blind) < 3000));
      if Fires(detect, look, 1000) then l'.state == OpenStart
      else Waiting(l', at + ms, w', blind, Stepped(detect, look))
  {
    hide Perform, Fine, Inv, Sensed, Nearer, Within, Pushed, Fires, Stepped;
    FineWait(l, ms);
    var v := Perform(l, Advance(ms));
    Elapsed(at, ms);
    SinceAdds(l.sense.sensorTimer, Wrap(at), Wrap(at + ms));
    IdleTick(v, Visit());
    Takes(v, Visit());
    FineTickSense(v, Visit());
    CoolsAtOnce(v, Visit());
  }

  lemma CoolsAtOnce(l: Lid, env: Env)
    requires l.sense.cooling ==> l.config.cooldownTime == 0
    ensures !Sensed(l, env).sense.cooling
  {
    hide Sensed;
    RestOver(l, env);
  }

  /** The first look after boot, with nobody there. */
  lemma FirstLook(boot: nat)
    ensures
      var l := Perform(Boot(Nvs(false, false), boot, CONFIG, Calm().reading), Tick(Calm()));
      Waiting(l, boot, ALL_FAR, 0, 0)
  {
    hide Perform, Boot, Fine, Sensed, Pushed;
    FineBoot(boot, CONFIG);
    var l := Boot(Nvs(false, false), boot, CONFIG, Calm().reading);
    IdleTick(l, Calm());
    StaysFar(l, Calm());
    NobodyNear();
    LooksOften(l, Calm());
    FineTickSense(l, Calm());
    CoolsAtOnce(l, Calm());
  }

  lemma NobodyNear()
    ensures Nearer(ALL_FAR, 50.0) == 0
  {
    CountFive(FAR, FAR, FAR, FAR, FAR, 50.0);
  }

  /** A visitor 100, 200, 300 and 1300 ms after boot. The third look is the first with three
      near readings, and the debounce time is 1000 ms, so the fourth opens the lid, unless
      the counter showed zero at the third: then the wait begins only at the fourth. */
  lemma ZeroDelaysOpening(boot: nat)
    ensures
      var l0 := Perform(Boot(Nvs(false, false), boot, CONFIG, Calm().reading), Tick(Calm()));
      var l3 := Later(Later(Later(l0, 100, Visit()), 100, Visit()), 100, Visit());
      var l4 := Later(l3, 1000, Visit());
      l3.state == Idle && l4.state == if Wrap(boot + 300) != 0 then OpenStart else Idle
  {
    hide Perform, Boot, Fine, Nearer, Within, Pushed, Later, Wrap;
    VisitsCount();
    FirstLook(boot);
    var l0 := Perform(Boot(Nvs(false, false), boot, CONFIG, Calm().reading), Tick(Calm()));
    Visiting(l0, boot, ALL_FAR, 0, 0, 100);
    var l1 := Later(l0, 100, Visit());
    var one := Pushed(ALL_FAR, 20.0);
    Visiting(l1, boot + 100, one, 0, 0, 100);
    var l2 := Later(l1, 100, Visit());
    Visiting(l2, boot + 200, Pushed(one, 20.0), 0, 0, 100);
    var l3 := Later(l2, 100, Visit());
    Elapsed(boot + 300, 1000);
    Visiting(l3, boot + 300, Pushed(Pushed(one, 20.0), 20.0), 0, Wrap(boot + 300), 1000);
  }

  // ---- A close that ends at counter value zero ----

  const PROMPT: Config := CONFIG.(cooldownTime := 0)

  function ClosingFrom(boot: nat): Lid {
    var booted := Boot(Nvs(false, false), boot, PROMPT, Calm().reading);
    Perform(Perform(booted, CmdClose), Tick(Calm()))
  }

  function ClosedFrom(boot: nat): Lid {
    Later(ClosingFrom(boot), 4000, Calm())
  }

  lemma ClosingIsFine(boot: nat)
    ensures
      var l := ClosingFrom(boot);
      && Fine(l) && l.config == PROMPT && l.state == Closing && l.clock == boot + 200 && l.stateTimer == l.Now()
      && l.sense.window == ALL_FAR && l.sense.lastDetect == 0 && !l.sense.deadlock
  {
    hide Perform, Boot, Fine, Sensed, Pushed, Wrap;
    FineBoot(boot, PROMPT);
    var booted := Boot(Nvs(false, false), boot, PROMPT, Calm().reading);
    FineOrder(booted, CmdClose);
    var ordered := Perform(booted, CmdClose);
    StartTick(ordered, Calm());
    StaysFar(ordered, Calm());
    FineTickSense(ordered, Calm());
  }

  lemma ClosedWaits(boot: nat)
    ensures Waiting(ClosedFrom(boot), boot + 4400, ALL_FAR, Wrap(boot + 4400), 0)
  {
    hide Perform, ClosingFrom, Fine, Sensed, Pushed, Wrap;
    ClosingIsFine(boot);
    var closing := ClosingFrom(boot);
    FineWait(closing, 4000);
    var last := Perform(closing, Advance(4000));
    Elapsed(boot + 200, 4000);
    StaysFar(last, Calm());
    NobodyNear();
    FineTickSense(last, Calm());
    LooksOften(last, Calm());
    ClosedTick(last, Calm());
    Elapsed(boot + 4200, 200);
    SinceAdds(Sensed(last, Calm()).sense.sensorTimer, Wrap(boot + 4200), Wrap(boot + 4400));
  }

  /** A visitor from 100 ms after a close, without a cooldown: 1300 ms after it the lid is
      still in its blind time of 3 s, unless the close ended at counter value zero. Then
      there is none, and the lid opens. */
  lemma ZeroHasNoBlindTime(boot: nat)
    ensures
      var rest := ClosedFrom(boot);
      var l3 := Later(Later(Later(rest, 100, Visit()), 100, Visit()), 100, Visit());
      var l4 := Later(l3, 1000, Visit());
      && rest.state == Idle && rest.clock == boot + 4400
      && l4.state == if Wrap(boot + 4400) == 0 then OpenStart else Idle
  {
    hide Perform, ClosedFrom, Fine, Nearer, Within, Pushed, Later, Wrap;
    VisitsCount();
    ClosedWaits(boot);
    var l0, blind := ClosedFrom(boot), Wrap(boot + 4400);
    Visiting(l0, boot + 4400, ALL_FAR, blind, 0, 100);
    var l1 := Later(l0, 100, Visit());
    var one := Pushed(ALL_FAR, 20.0);
    Visiting(l1, boot + 4500, one, blind, 0, 100);
    var l2 := Later(l1, 100, Visit());
    Visiting(l2, boot + 4600, Pushed(one, 20.0), blind, 0, 100);
    var l3 := Later(l2, 100, Visit());
    Elapsed(boot + 4400, 300);
    Elapsed(boot + 4400, 1300);
    Elapsed(boot + 4700, 1000);
    Visiting(l3, boot + 4700, Pushed(Pushed(one, 20.0), 20.0), blind, if blind == 0 then Wrap(boot + 4700) else 0, 1000);
  }
}
