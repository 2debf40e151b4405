/** When an update process calls the updater, told from the controller at each cut of the
    process, and how it ends. */
module OtaCourse {
  import opened Numeric
  import opened Gpio
  import opened Lid
  import opened LidInvariant
  import opened LidLog
  import opened LidRecord
  import opened OtaProcess
  import opened OtaEvidence
  import opened OtaSafety

  // ---- The controller in the course of a process ----

  /** What the other tasks leave of the controller. Requests for updates do not touch it. */
  function Meanwhile(l: Lid, gap: Gap): Lid
    decreases |gap|
  {
    if gap == [] then l
    else match gap[0]
      case Operate(op) => Meanwhile(Perform(l, op), gap[1..])
      case AskFor(_, _, _, _, _) => Meanwhile(l, gap[1..])
  }

  lemma {:induction false} BusyIsMeanwhile(u: Updater, gap: Gap)
    requires u.queue.busy
    ensures Interleave(u, gap) == u.(lid := Meanwhile(u.lid, gap))
    decreases |gap|
  {
    hide Perform;
    if gap != [] { BusyIsMeanwhile(Disturbed(u, gap[0]), gap[1..]); }
  }

  predicate Turning(l: Lid, start: u32) {
    Fin(50.0).Lt(l.motorCurrent) && Since(l.Now(), start) < 1000
  }

  /** The wait for the motor current: steps of 50 ms, at most a second by the counter. */
  function Settling(l: Lid, start: u32, waits: seq<Gap>): Lid
    decreases |waits|, if Turning(l, start) then 1000 - Since(l.Now(), start) else 0
  {
    if !Turning(l, start) then l
    else if waits == [] then
      StepCounts(l, start);
      Settling(Perform(l, Advance(50)), start, [])
    else Settling(Meanwhile(Perform(l, Advance(50)), waits[0]), start, waits[1..])
  }

  lemma StepCounts(l: Lid, start: u32)
    requires Since(l.Now(), start) < 1000
    ensures Since(Perform(l, Advance(50)).Now(), start) == Since(l.Now(), start) + 50
  {
    SinceIsElapsed(l.clock + 50, l.clock);
    SinceAdds(start, l.Now(), Wrap(l.clock + 50));
  }

  lemma {:induction false} SettleIsSettling(u: Updater, start: u32, waits: seq<Gap>)
    requires u.queue.busy
    ensures Settle(u, start, waits) == u.(lid := Settling(u.lid, start, waits))
    decreases |waits|, if Turning(u.lid, start) then 1000 - Since(u.lid.Now(), start) else 0
  {
    hide Perform;
    if Turning(u.lid, start) {
      if waits == [] {
        StepCounts(u.lid, start);
        SettleIsSettling(Delay(u, 50), start, []);
      } else {
        BusyIsMeanwhile(Delay(u, 50), waits[0]);
        SettleIsSettling(Interleave(Delay(u, 50), waits[0]), start, waits[1..]);
      }
    }
  }

  /** The controller where the process asks it, and at the call and return of the updater,
      if it gets that far. */
  datatype Cuts = Cuts(
    admitted: Lid, fetched: Lid, prepared: Lid, waited: Lid, settled: Lid, connected: Lid, called: Lid, returned: Lid,
    reservedAt: nat)

  function CutsOf(l: Lid, recovery: bool, maintenance: bool, s: Script): Cuts {
    var special := recovery || maintenance;
    var admitted := if special then Meanwhile(l, s.admitting) else l;
    var fetched := Meanwhile(if special then BeginOta(admitted, recovery, maintenance) else admitted, s.fetching);
    var prepared := Meanwhile(fetched, s.preparing);
    var waited := Waited(if special then prepared else BeginOta(prepared, false, false), s);
    var settled := if special then Meanwhile(waited, s.settling) else waited;
    var connected := Meanwhile(settled, s.opening);
    var called := if special then Meanwhile(connected, s.confirming) else connected;
    Cuts(admitted, fetched, prepared, waited, settled, connected, called, Meanwhile(called, s.flashing),
         if special then admitted.clock else prepared.clock)
  }

  /** The motor current has fallen, and the contacts have had half a second. */
  function Waited(l: Lid, s: Script): Lid {
    Meanwhile(Perform(Settling(l, l.Now(), s.waits), Advance(500)), s.contacts)
  }

  /** Inside the time to live, counted modulo 2^32. */
  predicate Timely(l: Lid, acceptedAt: nat, ttl: u32) {
    Counted(l.clock - acceptedAt) < ttl
  }

  /** The updater is called: the manifest asks for it, and at every cut the battery has shown
      what it must and the request is still in time. */
  predicate Calls(u: Updater, recovery: bool, maintenance: bool, s: Script) {
    var c := CutsOf(u.lid, recovery, maintenance, s);
    && Admitted(u, c, recovery, maintenance) && Wanted(s.manifest, maintenance)
    && (if recovery || maintenance then
          Timely(c.fetched, u.acceptedAt, u.queue.ttl) && MayGoOn(c.prepared, c.reservedAt)
        else MayStart(c.fetched, false, false) && MayStart(c.prepared, false, false))
    && MayGoOn(c.waited, c.reservedAt) && MayGoOn(c.connected, c.reservedAt)
    && (recovery || maintenance ==>
          Timely(c.settled, u.acceptedAt, u.queue.ttl) && Timely(c.called, u.acceptedAt, u.queue.ttl))
  }

  /** The process gets as far as its manifest. */
  predicate Admitted(u: Updater, c: Cuts, recovery: bool, maintenance: bool) {
    && (recovery || maintenance ==> Timely(u.lid, u.acceptedAt, u.queue.ttl))
    && MayStart(c.admitted, recovery, maintenance)
  }

  predicate CutsInStep(c: Cuts) {
    InStep(c.admitted) && InStep(c.fetched) && InStep(c.prepared) && InStep(c.waited) && InStep(c.connected)
  }

  // ---- How a process ends ----

  /** The updater was called there, and this came of it. */
  predicate Called(u: Updater, u': Updater, called: Lid, returned: Lid, flash: Flash) {
    && |u'.flashes| == |u.flashes| + 1 && u'.flashes[|u.flashes|].start == called
    && u'.flashes[|u.flashes|].end == returned
    && u'.rebooting == (flash == Flashed) && u'.attempts == u.attempts
    && u'.progress == (if flash == Flashed then RebootPending else Firmware)
    && u'.state == (match flash case Flashed => Success case NoUpdate => UpToDate case FlashFailed => Failed)
    && u'.lid == (if flash == Flashed then returned else FinishOta(returned))
  }

  predicate NotCalled(u: Updater, u': Updater, state: OtaState) {
    && u'.flashes == u.flashes && !u'.rebooting && u'.state == state
    && u'.attempts == u.attempts && u'.progress == u.progress
  }

  /** An admitted process counts as an attempt. */
  function Tried(u: Updater, admitted: bool): Updater {
    if admitted then u.(attempts := Wrap(u.attempts + 1), progress := VersionCheck) else u
  }

  lemma FreshIsTimely(u: Updater)
    requires Dated(u)
    ensures u.Fresh() <==> Timely(u.lid, u.acceptedAt, u.queue.ttl)
  {
    SinceIsElapsed(u.lid.clock, u.acceptedAt);
  }

  lemma CallStage(u: Updater, checked: Lid, special: bool, s: Script)
    requires Holding(u, special) && u.progress == Firmware
    ensures Called(u, CallFlash(u, checked, special, s), u.lid, Meanwhile(u.lid, s.flashing), s.flash)
  {
    hide Inv, Remembered, FinishOta, Quiet, Extends, Interleave, Meanwhile;
    BusyIsMeanwhile(u, s.flashing);
    HeldGap(u, special, s.flashing);
    Ending(Interleave(u, s.flashing).lid);
  }

  /** From the open connection on. */
  lemma ConnectStage(u: Updater, special: bool, s: Script)
    requires Holding(u, special) && InStep(Meanwhile(u.lid, s.opening))
    ensures
      var o := Meanwhile(u.lid, s.opening);
      var c := if special then Meanwhile(o, s.confirming) else o;
      var u' := Connect(u, special, s);
      if MayGoOn(o, u.reservedAt) && (special ==> Timely(c, u.acceptedAt, u.queue.ttl))
      then Called(u, u', c, Meanwhile(c, s.flashing), s.flash)
      else NotCalled(u, u', Failed)
  {
    hide Inv, Remembered, FinishOta, Quiet, Extends, Interleave, Meanwhile, InStep, MayGoOn, CanContinueOta, CallFlash, Timely;
    BusyIsMeanwhile(u, s.opening);
    HeldGap(u, special, s.opening);
    var o := Interleave(u, s.opening);
    GoesOnExactly(o, special);
    BusyIsMeanwhile(o, s.confirming);
    HeldGap(o, special, s.confirming);
    var c := if special then Interleave(o, s.confirming) else o;
    if special { FreshIsTimely(c); }
    var called := c.(progress := Firmware);
    CallStage(called, o.lid, special, s);
    CalledFrom(u, called, CallFlash(called, o.lid, special, s));
  }

  lemma GoesOnExactly(u: Updater, special: bool)
    requires Holding(u, special) && InStep(u.lid)
    ensures CanContinueOta(u.lid) <==> MayGoOn(u.lid, u.reservedAt)
  {
    hide Inv, Remembered, InStep, MayGoOn, CanContinueOta;
    ContinuesExactly(u.lid, u.reservedAt);
  }

  /** From the wait for the motor on. */
  lemma IsolatedStage(u: Updater, special: bool, s: Script)
    requires Holding(u, special) && InStep(Waited(u.lid, s))
    requires
      var w := Waited(u.lid, s);
      InStep(Meanwhile(if special then Meanwhile(w, s.settling) else w, s.opening))
    ensures
      var w := Waited(u.lid, s);
      var t := if special then Meanwhile(w, s.settling) else w;
      var o := Meanwhile(t, s.opening);
      var c := if special then Meanwhile(o, s.confirming) else o;
      var u' := OtaProcess.Isolated(u, special, s);
      if MayGoOn(w, u.reservedAt) && MayGoOn(o, u.reservedAt) &&
         (special ==> Timely(t, u.acceptedAt, u.queue.ttl) && Timely(c, u.acceptedAt, u.queue.ttl))
      then Called(u, u', c, Meanwhile(c, s.flashing), s.flash)
      else NotCalled(u, u', Failed)
  {
    hide Inv, Remembered, FinishOta, Quiet, Extends, Interleave, Meanwhile, InStep, MayGoOn, CanContinueOta, Connect, Timely,
         Settle, Settling, Perform, Called;
    WaitedStage(u, special, s);
    var w := Interleave(Delay(Settle(u, u.lid.Now(), s.waits), 500), s.contacts);
    GoesOnExactly(w, special);
    BusyIsMeanwhile(w, s.settling);
    HeldGap(w, special, s.settling);
    var t := if special then Interleave(w, s.settling) else w;
    if special { FreshIsTimely(t); }
    ConnectStage(t.(watched := false), special, s);
    CalledFrom(u, t.(watched := false), Connect(t.(watched := false), special, s));
  }

  lemma CalledFrom(u: Updater, v: Updater, u': Updater)
    requires u.flashes == v.flashes && u.attempts == v.attempts
    ensures forall c, r, f :: Called(u, u', c, r, f) <==> Called(v, u', c, r, f)
  {
  }

  lemma WaitedStage(u: Updater, special: bool, s: Script)
    requires Holding(u, special)
    ensures
      var w := Interleave(Delay(Settle(u, u.lid.Now(), s.waits), 500), s.contacts);
      w == u.(lid := Waited(u.lid, s)) && Holding(w, special)
  {
    hide Inv, Remembered, Quiet, Extends, Interleave, Meanwhile, Settle, Settling, Later;
    SettleIsSettling(u, u.lid.Now(), s.waits);
    SettleHolds(u, special, u.lid.Now(), s.waits);
    var a := Settle(u, u.lid.Now(), s.waits);
    DelayHolds(a, special, 500);
    GapHolds(Delay(a, 500), special, s.contacts);
    BusyIsMeanwhile(Delay(a, 500), s.contacts);
  }

  /** The tests after the manifest, for a special update: it holds the controller already. */
  lemma SpecialPrepareStage(u: Updater, s: Script)
    requires Holding(u, true) && InStep(Meanwhile(u.lid, s.preparing))
    requires
      var w := Waited(Meanwhile(u.lid, s.preparing), s);
      InStep(w) && InStep(Meanwhile(Meanwhile(w, s.settling), s.opening))
    ensures
      var p := Meanwhile(u.lid, s.preparing);
      var w := Waited(p, s);
      var t := Meanwhile(w, s.settling);
      var o := Meanwhile(t, s.opening);
      var c := Meanwhile(o, s.confirming);
      var u' := Prepare(u, true, s);
      if Timely(u.lid, u.acceptedAt, u.queue.ttl) && MayGoOn(p, u.reservedAt) &&
         MayGoOn(w, u.reservedAt) && MayGoOn(o, u.reservedAt) &&
         Timely(t, u.acceptedAt, u.queue.ttl) && Timely(c, u.acceptedAt, u.queue.ttl)
      then Called(u, u', c, Meanwhile(c, s.flashing), s.flash)
      else NotCalled(u, u', Failed)
  {
    hide Inv, Remembered, FinishOta, Quiet, Extends, Interleave, Meanwhile, InStep, MayGoOn, CanContinueOta, Timely, Waited,
         OtaProcess.Isolated, Called;
    FreshIsTimely(u);
    BusyIsMeanwhile(u, s.preparing);
    HeldGap(u, true, s.preparing);
    var p := Interleave(u, s.preparing);
    GoesOnExactly(p, true);
    IsolatedStage(p, true, s);
    CalledFrom(u, p, OtaProcess.Isolated(p, true, s));
  }

  /** The same for a plain update, which reserves the controller only now. */
  lemma PlainPrepareStage(u: Updater, s: Script)
    requires Working(u, false) && InStep(u.lid) && InStep(Meanwhile(u.lid, s.preparing))
    requires
      var w := Waited(BeginOta(Meanwhile(u.lid, s.preparing), false, false), s);
      InStep(w) && InStep(Meanwhile(w, s.opening))
    ensures
      var p := Meanwhile(u.lid, s.preparing);
      var w := Waited(BeginOta(p, false, false), s);
      var o := Meanwhile(w, s.opening);
      var u' := Prepare(u, false, s);
      if MayStart(u.lid, false, false) && MayStart(p, false, false) && MayGoOn(w, p.clock) && MayGoOn(o, p.clock)
      then Called(u, u', o, Meanwhile(o, s.flashing), s.flash)
      else NotCalled(u, u', Failed)
  {
    hide Inv, Remembered, FinishOta, Quiet, Extends, Interleave, Meanwhile, InStep, MayGoOn, MayStart, CanStartOta, Waited,
         OtaProcess.Isolated, Called, BeginOta;
    StartsExactly(u.lid, false, false);
    BusyIsMeanwhile(u, s.preparing);
    WorkingGap(u, false, s.preparing);
    var p := Interleave(u, s.preparing);
    StartsExactly(p.lid, false, false);
    if CanStartOta(p.lid, false, false) {
      OtaSafety.Beginning(p.lid, false, false);
      var b := Reserved(p, false, false);
      IsolatedStage(b, false, s);
      CalledFrom(u, b, OtaProcess.Isolated(b, false, s));
    }
  }

  lemma FetchedStage(u: Updater, special: bool, maintenance: bool, s: Script)
    requires Working(u, special)
    ensures
      var f := u.(lid := Meanwhile(u.lid, s.fetching), attempts := Wrap(u.attempts + 1), progress := VersionCheck,
                  queue := u.queue.(busy := true), state := Updating);
      var u' := Fetch(u, special, maintenance, s);
      && Working(f, special)
      && (if Wanted(s.manifest, maintenance) then u' == Prepare(f, special, s)
          else NotCalled(Tried(u, true), u', if s.manifest == SameVersion then UpToDate else Failed))
  {
    hide Inv, Remembered, FinishOta, Quiet, Extends, Interleave, Meanwhile, Prepare;
    var begun := u.(attempts := Wrap(u.attempts + 1), progress := VersionCheck, state := Checking,
                    queue := u.queue.(busy := true));
    BusyIsMeanwhile(begun, s.fetching);
    WorkingGap(begun, special, s.fetching);
  }

  /** An update process calls the updater exactly when the manifest asks for it and the
      battery's history, and for a special request its time to live, hold at every cut. The
      call is made there and then, and the end follows from what the updater returns. */
  lemma ProcessCallsExactly(u: Updater, recovery: bool, maintenance: bool, s: Script)
    requires Working(u, false) && (recovery || maintenance ==> Dated(u))
    requires CutsInStep(CutsOf(u.lid, recovery, maintenance, s))
    ensures
      var c, u' := CutsOf(u.lid, recovery, maintenance, s), Process(u, recovery, maintenance, s);
      var tried := Tried(u, Admitted(u, c, recovery, maintenance));
      if Calls(u, recovery, maintenance, s) then Called(tried, u', c.called, c.returned, s.flash)
      else NotCalled(tried, u', if Admitted(u, c, recovery, maintenance) && s.manifest == SameVersion && !maintenance
                                then UpToDate else Failed)
  {
    hide Inv, Remembered, FinishOta, Quiet, Extends, Interleave, Meanwhile, InStep, MayGoOn, MayStart, CanStartOta, Waited,
         Prepare, Called, BeginOta, Timely;
    if recovery || maintenance { SpecialCalls(u, recovery, maintenance, s); } else { PlainCalls(u, s); }
  }

  lemma PlainCalls(u: Updater, s: Script)
    requires Working(u, false) && CutsInStep(CutsOf(u.lid, false, false, s))
    ensures
      var c, u' := CutsOf(u.lid, false, false, s), Process(u, false, false, s);
      var tried := Tried(u, Admitted(u, c, false, false));
      if Calls(u, false, false, s) then Called(tried, u', c.called, c.returned, s.flash)
      else NotCalled(tried, u', if Admitted(u, c, false, false) && s.manifest == SameVersion then UpToDate else Failed)
  {
    hide Inv, Remembered, FinishOta, Quiet, Extends, Interleave, Meanwhile, InStep, MayGoOn, MayStart, CanStartOta, Waited,
         Prepare, Called, BeginOta, Fetch;
    StartsExactly(u.lid, false, false);
    FetchedStage(u, false, false, s);
    var f := u.(lid := Meanwhile(u.lid, s.fetching), attempts := Wrap(u.attempts + 1), progress := VersionCheck,
                queue := u.queue.(busy := true), state := Updating);
    PlainPrepareStage(f, s);
    CalledFrom(Tried(u, true), f, Prepare(f, false, s));
  }

  lemma SpecialCalls(u: Updater, recovery: bool, maintenance: bool, s: Script)
    requires Working(u, false) && (recovery || maintenance) && Dated(u)
    requires CutsInStep(CutsOf(u.lid, recovery, maintenance, s))
    ensures
      var c, u' := CutsOf(u.lid, recovery, maintenance, s), Process(u, recovery, maintenance, s);
      var tried := Tried(u, Admitted(u, c, recovery, maintenance));
      if Calls(u, recovery, maintenance, s) then Called(tried, u', c.called, c.returned, s.flash)
      else NotCalled(tried, u', if Admitted(u, c, recovery, maintenance) && s.manifest == SameVersion && !maintenance
                                then UpToDate else Failed)
  {
    hide Inv, Remembered, FinishOta, Quiet, Prefix, Interleave, Meanwhile, InStep, MayGoOn, MayStart, CanStartOta, Waited,
         Prepare, Called, BeginOta, Timely, Fetch;
    FreshIsTimely(u);
    BusyIsMeanwhile(u, s.admitting);
    WorkingGap(u, false, s.admitting);
    var a := Interleave(u, s.admitting);
    StartsExactly(a.lid, recovery, maintenance);
    if CanStartOta(a.lid, recovery, maintenance) {
      OtaSafety.Beginning(a.lid, recovery, maintenance);
      BegunIs(a.lid, recovery, maintenance);
      var b := Reserved(a, recovery, maintenance);
      FetchedStage(b, true, maintenance, s);
      var f := b.(lid := Meanwhile(b.lid, s.fetching), attempts := Wrap(b.attempts + 1), progress := VersionCheck,
                  queue := b.queue.(busy := true), state := Updating);
      SpecialPrepareStage(f, s);
      CalledFrom(Tried(u, true), f, Prepare(f, true, s));
    }
  }

  lemma BegunIs(l: Lid, recovery: bool, maintenance: bool)
    requires CanStartOta(l, recovery, maintenance)
    ensures TryBeginOta(l, recovery, maintenance) == BeginOta(l, recovery, maintenance)
  {
    hide CanStartOta, BeginOta;
  }
}
