/** A sensor deadlock that ends although someone stood in the path. */
module LidDeadlock {
  import opened Numeric
  import opened DistanceFilter
  import opened Gpio
  import opened Lid
  import opened LidInvariant
  import opened LidDirections
  import opened LidReactions
  import opened LidSense
  import opened LidSteps

  /** The lid at a moment of the run below: nothing to see yet, the timers as they are. */
  predicate Stage(l: Lid, state: FsmState, at: nat, deadlock: bool, clear: u32, maintenance: bool) {
    && Fine(l) && l.config == CONFIG && l.state == state && l.clock == at < WRAP
    && (Clocked(state) ==> l.stateTimer == at) && (state == Hold ==> l.sense.holdStart == at)
    && l.sense.deadlock == deadlock && l.sense.deadlockClear == clear && l.sense.maintenanceRequested == maintenance
  }

  predicate Clocked(s: FsmState) {
    s == Opening || s == Closing || s == Maintenance
  }

  lemma OpenedStage(l: Lid, at: nat, deadlock: bool, clear: u32, maintenance: bool)
    requires Stage(l, Opening, at, deadlock, clear, maintenance) && l.sense.window == ALL_FAR && at + 4200 < WRAP
    ensures
      var l' := Later(l, 4000, Calm());
      && Stage(l', if maintenance then Maintenance else Hold, at + 4200, deadlock, clear, maintenance)
      && l'.sense.window == ALL_FAR && l'.sense.sensorTimer <= at + 4000
  {
    hide Perform, Fine, Inv, Sensed;
    FineWait(l, 4000);
    var w := Perform(l, Advance(4000));
    OpenedTick(w, Calm());
    StaysFar(w, Calm());
    LooksOften(w, Calm());
    FineTickSense(w, Calm());
  }

  lemma StartStage(l: Lid, at: nat, deadlock: bool, clear: u32, maintenance: bool)
    requires l.state == OpenStart || l.state == CloseStart
    requires Stage(l, l.state, at, deadlock, clear, maintenance) && at + 200 < WRAP
    ensures
      var l' := Perform(l, Tick(Calm()));
      && Stage(l', if l.state == OpenStart then Opening else Closing, at + 200, deadlock, clear, maintenance)
      && (l.sense.window == ALL_FAR ==> l'.sense.window == ALL_FAR)
      && l'.sense.window == Sensed(l, Calm()).sense.window && l'.sense.sensorTimer == Sensed(l, Calm()).sense.sensorTimer
  {
    hide Perform, Fine, Inv, Sensed;
    StartTick(l, Calm());
    if l.sense.window == ALL_FAR { StaysFar(l, Calm()); }
    FineTickSense(l, Calm());
  }

  lemma HeldStage(l: Lid, at: nat)
    requires Stage(l, Hold, at, false, 0, false) && l.sense.window == ALL_FAR && at + 180000 < WRAP
    ensures
      var l' := Later(l, 180000, Calm());
      Stage(l', CloseStart, at + 180000, true, 0, false) && l'.sense.window == ALL_FAR
  {
    hide Perform, Fine, Inv, Sensed;
    FineWait(l, 180000);
    var w := Perform(l, Advance(180000));
    HeldTooLong(w, Calm());
    StaysFar(w, Calm());
    FineTickSense(w, Calm());
  }

  lemma ClosedStage(l: Lid, at: nat, clear: u32)
    requires Stage(l, Closing, at, true, clear, false) && at + 4200 < WRAP
    ensures
      var l', w := Later(l, 4000, Calm()), Perform(l, Advance(4000));
      && Stage(l', Idle, at + 4200, true, clear, false)
      && (l.sense.window == ALL_FAR ==> l'.sense.window == ALL_FAR)
      && l'.sense.window == Sensed(w, Calm()).sense.window && l'.sense.sensorTimer == Sensed(w, Calm()).sense.sensorTimer
  {
    hide Perform, Fine, Inv, Sensed;
    FineWait(l, 4000);
    var w := Perform(l, Advance(4000));
    ClosedTick(w, Calm());
    if l.sense.window == ALL_FAR { StaysFar(w, Calm()); }
    FineTickSense(w, Calm());
  }

  /** The first clear look starts the ten seconds. */
  lemma FirstClearLook(l: Lid, at: nat)
    requires Stage(l, Idle, at, true, 0, false) && l.sense.window == ALL_FAR && at > 0
    ensures
      var l' := Perform(l, Tick(Calm()));
      Stage(l', Idle, at, true, at, false) && l'.sense.window == ALL_FAR
  {
    hide Perform, Inv, Sensed, Charged, Stalled, Locked;
    DeadlockedTick(l, Calm());
    StaysFar(l, Calm());
    StillFar();
    FineTick(l, Calm());
  }

  /** A maintenance that began then, under a deadlock. */
  predicate Serving(l: Lid, began: nat, at: nat, clear: u32) {
    && Fine(l) && l.config == CONFIG && l.state == Maintenance && l.stateTimer == began < WRAP
    && began <= at == l.clock < WRAP
    && l.sense.deadlock && l.sense.deadlockClear == clear && l.sense.maintenanceRequested
  }

  /** A tick of it with someone in the path. */
  lemma VisitServing(l: Lid, began: nat, at: nat, clear: u32)
    requires Serving(l, began, at, clear) && at + 100 < WRAP && at - began < 200000
    requires Since(at + 100, l.sense.sensorTimer) >= 100
    ensures
      var l' := Later(l, 100, Visit());
      && Serving(l', began, at + 100, clear)
      && l'.sense.window == Pushed(l.sense.window, 20.0) && l'.sense.sensorTimer == at + 100
  {
    hide Perform, Inv, Sensed, Fine;
    FineWait(l, 100);
    var w := Perform(l, Advance(100));
    MaintenanceTick(w, Visit());
    Takes(w, Visit());
    FineTickSense(w, Visit());
  }

  /** The end of the maintenance, and the start of the close. */
  lemma EndServing(l: Lid, began: nat, at: nat, clear: u32)
    requires Serving(l, began, at, clear) && at + 300 < WRAP && l.sense.sensorTimer == at
    ensures
      var l' := OrderedLater(l, 100, CmdEndMaintain, Calm());
      && Stage(l', Closing, at + 300, true, clear, false)
      && l'.sense.window == Pushed(l.sense.window, FAR) && l'.sense.sensorTimer == at + 100
  {
    hide Perform, Inv, Sensed, Fine;
    FineWait(l, 100);
    var w := Perform(l, Advance(100));
    FineMaintenance(w, CmdEndMaintain);
    var c := Perform(w, CmdEndMaintain);
    Takes(c, Calm());
    StartStage(c, at + 100, true, clear, false);
  }

  /** The last look of the run: far readings again, and the ten seconds counted. */
  lemma LastLook(l: Lid, at: nat, clear: u32)
    requires Stage(l, Idle, at, true, clear, false) && clear != 0 && clear + 10000 <= at + 1000 < WRAP
    requires l.sense.window == [20.0, 20.0, 20.0, FAR, FAR] && Since(at + 1000, l.sense.sensorTimer) >= 100
    ensures
      var l' := Later(l, 1000, Calm());
      l'.state == Idle && !l'.sense.deadlock && l'.clock == at + 1000
  {
    hide Perform, Inv, Sensed, Charged, Stalled, Locked, Median, Nearer, Within;
    FineWait(l, 1000);
    var w := Perform(l, Advance(1000));
    DeadlockedTick(w, Calm());
    Takes(w, Calm());
    FineTick(w, Calm());
    assert Pushed(l.sense.window, FAR) == [20.0, 20.0, FAR, FAR, FAR];
    FarByThree(20.0, 20.0);
    SeenByMajority([20.0, 20.0, FAR, FAR, FAR], 50.0);
  }

  lemma FarByThree(a: real, b: real)
    requires a <= 50.0 && b <= 50.0
    ensures Within([a, b, FAR, FAR, FAR], 50.0) == 2
    ensures Within([FAR, FAR, a, b, a], 50.0) == 3
  {
    CountFive(a, b, FAR, FAR, FAR, 50.0);
    CountFive(FAR, FAR, a, b, a, 50.0);
  }

  /** Opened by order and held too long, closed under the deadlock that sets: the lid as it
      comes to rest, 188.8 s after boot. */
  function Deadlocked(): Lid {
    var booted := Boot(Nvs(false, false), 0, CONFIG, Calm().reading);
    var opening := Perform(Perform(booted, CmdOpen), Tick(Calm()));
    var overheld := Later(Later(opening, 4000, Calm()), 180000, Calm());
    Later(Perform(overheld, Tick(Calm())), 4000, Calm())
  }

  lemma DeadlockedStage()
    ensures Stage(Deadlocked(), Idle, 188800, true, 0, false) && Deadlocked().sense.window == ALL_FAR
  {
    hide Perform, Boot, Fine, Later;
    FineBoot(0, CONFIG);
    var booted := Boot(Nvs(false, false), 0, CONFIG, Calm().reading);
    FineOrder(booted, CmdOpen);
    StartStage(Perform(booted, CmdOpen), 0, false, 0, false);
    var opening := Perform(Perform(booted, CmdOpen), Tick(Calm()));
    OpenedStage(opening, 200, false, 0, false);
    HeldStage(Later(opening, 4000, Calm()), 4400);
    var overheld := Later(Later(opening, 4000, Calm()), 180000, Calm());
    StartStage(overheld, 184400, true, 0, false);
    ClosedStage(Perform(overheld, Tick(Calm())), 184600, 0);
  }

  /** One clear look, a maintenance with someone in the path all along, and the next idle
      look ends the deadlock: 5.5 s after the sensor still saw someone there. */
  lemma DeadlockEndsUnclear()
    ensures
      var clear := Perform(Deadlocked(), Tick(Calm()));
      var opening := Perform(Perform(clear, CmdMaintain), Tick(Calm()));
      var visited := Later(Later(Later(Later(opening, 4000, Calm()), 100, Visit()), 100, Visit()), 100, Visit());
      var closing := OrderedLater(visited, 100, CmdEndMaintain, Calm());
      var rest := Later(closing, 4000, Calm());
      var look := Later(rest, 1000, Calm());
      && clear.state == Idle && clear.sense.deadlockClear == clear.Now() == 188800
      && visited.state == Maintenance && Within(visited.sense.window, 50.0) >= 3 && visited.clock == 193500
      && closing.state == Closing && rest.state == Idle && rest.sense.deadlock
      && !look.sense.deadlock && look.clock == 199000
  {
    hide Perform, Deadlocked, Fine, Later, OrderedLater, Within;
    DeadlockedStage();
    FirstClearLook(Deadlocked(), 188800);
    var clear := Perform(Deadlocked(), Tick(Calm()));
    FineMaintenance(clear, CmdMaintain);
    StartStage(Perform(clear, CmdMaintain), 188800, true, 188800, true);
    var opening := Perform(Perform(clear, CmdMaintain), Tick(Calm()));
    OpenedStage(opening, 189000, true, 188800, true);
    ServedByVisitors(Later(opening, 4000, Calm()));
    ClosedAfterVisitors(Later(Later(Later(Later(opening, 4000, Calm()), 100, Visit()), 100, Visit()), 100, Visit()));
  }

  lemma ClosedAfterVisitors(l: Lid)
    requires Serving(l, 193200, 193500, 188800) && l.sense.sensorTimer == 193500
    requires l.sense.window == [FAR, FAR, 20.0, 20.0, 20.0]
    ensures
      var closing := OrderedLater(l, 100, CmdEndMaintain, Calm());
      var rest := Later(closing, 4000, Calm());
      var look := Later(rest, 1000, Calm());
      && closing.state == Closing && rest.state == Idle && rest.sense.deadlock
      && !look.sense.deadlock && look.clock == 199000
  {
    hide Perform, Fine, Later, OrderedLater, Within, Sensed;
    EndServing(l, 193200, 193500, 188800);
    var closing := OrderedLater(l, 100, CmdEndMaintain, Calm());
    ClosedStage(closing, 193800, 188800);
    Waited(closing, 193800);
    var rest := Later(closing, 4000, Calm());
    LastLook(rest, 198000, 188800);
  }

  lemma Waited(l: Lid, at: nat)
    requires l.clock == at && at + 4000 < WRAP && l.sense.window == [FAR, 20.0, 20.0, 20.0, FAR]
    requires l.sense.sensorTimer <= at
    ensures
      var w := Perform(l, Advance(4000));
      && Sensed(w, Calm()).sense.window == [20.0, 20.0, 20.0, FAR, FAR]
      && Sensed(w, Calm()).sense.sensorTimer == at + 4000
  {
    hide Sensed;
    Takes(Perform(l, Advance(4000)), Calm());
  }

  lemma ServedByVisitors(l: Lid)
    requires Serving(l, 193200, 193200, 188800) && l.sense.window == ALL_FAR && l.sense.sensorTimer <= 193200
    ensures
      var visited := Later(Later(Later(l, 100, Visit()), 100, Visit()), 100, Visit());
      && Serving(visited, 193200, 193500, 188800) && visited.sense.sensorTimer == 193500
      && visited.sense.window == [FAR, FAR, 20.0, 20.0, 20.0] && Within(visited.sense.window, 50.0) == 3
  {
    hide Perform, Fine, Later, Within;
    VisitServing(l, 193200, 193200, 188800);
    VisitServing(Later(l, 100, Visit()), 193200, 193300, 188800);
    VisitServing(Later(Later(l, 100, Visit()), 100, Visit()), 193200, 193400, 188800);
    FarByThree(20.0, 20.0);
  }
}
