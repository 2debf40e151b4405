/** What every update process keeps and every flash call can rely on, whatever the
    other tasks, the network and the battery do in between. */
module OtaSafety {
  import opened Numeric
  import opened BatteryPolicy
  import opened Gpio
  import opened Lid
  import opened LidWiring
  import opened LidInvariant
  import opened LidLog
  import opened LidLifecycles
  import opened LidRecord
  import opened OtaEvidence
  import opened OtaQueue
  import opened OtaProcess

  // ---- Isolation at every moment ----

  /** From `early` to `late` no relay pin was driven. */
  predicate Quiet(early: Log, late: Log)
    decreases late
  {
    early == late ||
    (late.Then? && Quiet(early, late.before) &&
     match late.event
     case MainOn(_) => false
     case DirWrite(_, _) => false
     case DirMode(_, mode) => mode == Input
     case _ => true)
  }

  lemma {:induction false} QuietTrans(a: Log, b: Log, c: Log)
    requires Quiet(a, b) && Quiet(b, c)
    ensures Quiet(a, c)
    decreases c
  {
    if b != c { QuietTrans(a, b, c.before); }
  }

  lemma {:induction false} QuietMoments(early: Log, moment: Log, late: Log)
    requires Quiet(early, late) && Prefix(early, moment) && Prefix(moment, late) && AllInput(Pinned(early))
    ensures AllInput(Pinned(moment))
    decreases late
  {
    if moment == late {
      QuietEnd(early, late);
    } else if early == late {
      Antisymmetric(early, moment);
    } else {
      QuietMoments(early, moment, late.before);
    }
  }

  lemma {:induction false} QuietEnd(early: Log, late: Log)
    requires Quiet(early, late) && AllInput(Pinned(early))
    ensures AllInput(Pinned(late))
    decreases late
  {
    if early != late { QuietEnd(early, late.before); }
  }

  function Length(log: Log): nat {
    if log.Booted? then 0 else 1 + Length(log.before)
  }

  lemma {:induction false} PrefixLength(a: Log, b: Log)
    requires Prefix(a, b)
    ensures Length(a) <= Length(b) && (Length(a) == Length(b) ==> a == b)
    decreases b
  {
    if a != b { PrefixLength(a, b.before); }
  }

  lemma Antisymmetric(a: Log, b: Log)
    requires Prefix(a, b) && Prefix(b, a)
    ensures a == b
  {
    PrefixLength(a, b);
    PrefixLength(b, a);
  }

  lemma ReadQuiet(l: Lid, r: Reading)
    ensures Quiet(l.bus.log, PeriodicRead(l, r).bus.log)
    ensures PeriodicRead(l, r).state == l.state && PeriodicRead(l, r).charge == l.charge
  {
    hide NextPolicy;
    var read := Emit(l, ReadPower(r, l.config.voltageShutdownLimit));
    assert Quiet(l.bus.log, read.bus.log);
  }

  lemma OffQuiet(l: Lid)
    ensures Quiet(l.bus.log, ForceOff(l).bus.log)
  {
    var a := Emit(l, MainOff);
    var b := Emit(a, DirMode(DirA, Input));
    assert Quiet(l.bus.log, a.bus.log);
    assert Quiet(l.bus.log, b.bus.log);
  }

  lemma ServiceQuiet(l: Lid, env: Env)
    requires l.state == OtaUpdating && !l.charge.active
    ensures Quiet(l.bus.log, ServicePower(l, env).lid.bus.log)
    ensures ServicePower(l, env).lid.state == OtaUpdating
  {
    hide PeriodicRead, ForceOff, TakeSnapshot, Quiet, Protect, EnterProtection, LeaveProtection;
    ReadQuiet(l, env.reading);
    var r := PeriodicRead(l, env.reading);
    OffQuiet(r);
    OffState(r);
    QuietTrans(l.bus.log, r.bus.log, ForceOff(r).bus.log);
  }

  lemma OffState(l: Lid)
    ensures ForceOff(l).state == l.state
  {
  }

  /** While an update holds the controller no other task gets a relay pin driven, not
      even inside an operation. */
  lemma ForeignIsQuiet(l: Lid, op: Op)
    requires Good(l) && l.state == OtaUpdating && Foreign(op)
    ensures Quiet(l.bus.log, Perform(l, op).bus.log)
  {
    hide ServicePower, TransitionTo, Quiet, TakeSnapshot, Wired, Metered, Confined, SetRelays, ReadSensors, ChargeAdmitted;
    SelfQuiet(l.bus.log);
    match op {
      case Tick(env) => ServiceQuiet(l, env);
      case OtaPower(env) => ServiceQuiet(l, env);
      case _ =>
    }
  }

  lemma SelfQuiet(log: Log)
    ensures Quiet(log, log)
  {
  }

  // ---- Gaps ----

  lemma BusyGap(u: Updater, gap: Gap)
    requires Good(u.lid) && u.queue.busy
    ensures
      var u' := Interleave(u, gap);
      && u' == u.(lid := u'.lid)
      && Good(u'.lid) && u'.lid.ota == u.lid.ota && Extends(u.lid, u'.lid)
      && (u'.lid.state == OtaUpdating) == (u.lid.state == OtaUpdating)
      && (u.lid.state == OtaUpdating ==> Quiet(u.lid.bus.log, u'.lid.bus.log))
    decreases |gap|
  {
    hide Inv, Remembered, Perform, Quiet, Extends, Foreign;
    if gap == [] {
      Refl(u.lid);
      SelfQuiet(u.lid.bus.log);
    } else {
      BusyStep(u, gap[0]);
      var n := Disturbed(u, gap[0]);
      BusyGap(n, gap[1..]);
      var last := Interleave(n, gap[1..]);
      Trans(u.lid, n.lid, last.lid);
      if u.lid.state == OtaUpdating { QuietTrans(u.lid.bus.log, n.lid.bus.log, last.lid.bus.log); }
    }
  }

  lemma BusyStep(u: Updater, other: Other)
    requires Good(u.lid) && u.queue.busy
    ensures
      var u' := Disturbed(u, other);
      && u' == u.(lid := u'.lid)
      && Good(u'.lid) && u'.lid.ota == u.lid.ota && Extends(u.lid, u'.lid)
      && (u'.lid.state == OtaUpdating) == (u.lid.state == OtaUpdating)
      && (u.lid.state == OtaUpdating ==> Quiet(u.lid.bus.log, u'.lid.bus.log))
  {
    hide Inv, Remembered, Perform, Quiet, Extends, Foreign;
    match other
    case Operate(op) =>
      GoodKeeps(u.lid, op);
      PerformExtends(u.lid, op);
      ForeignKeepsReservation(u.lid, op);
      if u.lid.state == OtaUpdating { ForeignIsQuiet(u.lid, op); }
    case AskFor(_, _, _, _, _) =>
      Refl(u.lid);
      SelfQuiet(u.lid.bus.log);
  }

  // ---- One process ----

  /** The slot's time stamp stands for the moment of acceptance. */
  predicate Dated(u: Updater) {
    0 < u.queue.ttl <= MAX_TTL_MS && u.queue.requestAt == Wrap(u.acceptedAt) && u.acceptedAt <= u.lid.clock
  }

  /** A flash call starts with the power checked and, on request of the owner, inside
      the accepted time; from that check to its return no relay pin is driven. */
  predicate SafeFlash(f: FlashCall) {
    && (InStep(f.checked) ==> MayGoOn(f.checked, f.reservedAt)) && f.special == Special(f.checked)
    && f.start.state == OtaUpdating && f.end.state == OtaUpdating
    && AllInput(Pinned(f.checked.bus.log))
    && Extends(f.checked, f.start) && Extends(f.start, f.end) && Quiet(f.checked.bus.log, f.end.bus.log)
    && (f.special ==>
          && 0 < f.ttl <= MAX_TTL_MS && f.acceptedAt <= f.start.clock
          && (f.start.clock - f.acceptedAt) % WRAP < f.ttl)
  }

  predicate Ended(u: Updater, u': Updater, special: bool) {
    && u' == u.(lid := u'.lid, reservedAt := u'.reservedAt, queue := u.queue.(busy := u'.rebooting), state := u'.state, progress := u'.progress,
                attempts := u'.attempts, watched := u'.watched, rebooting := u'.rebooting, flashes := u'.flashes)
    && Good(u'.lid) && Extends(u.lid, u'.lid)
    && (!u'.rebooting ==> u'.lid.state != OtaUpdating && u'.watched)
    && (u.lid.ota.used ==> u'.lid.ota.used)
    && (if |u'.flashes| == |u.flashes| then u'.flashes == u.flashes && !u'.rebooting
        else
          && |u'.flashes| == |u.flashes| + 1 && u'.flashes[..|u.flashes|] == u.flashes
          && SafeFlash(u'.flashes[|u.flashes|]) && u'.flashes[|u.flashes|].special == special
          && (special ==> u'.lid.ota.used))
  }

  lemma Ending(l: Lid)
    requires Good(l)
    ensures
      var l' := FinishOta(l);
      Good(l') && l'.state != OtaUpdating && l'.ota.used == l.ota.used && Extends(l, l')
  {
    hide Inv, Remembered, Extends;
    FinishKeeps(l);
    FinishRecorded(l);
    FinishFrame(l);
    PerformExtends(l, EndUpdate);
    OtaIsolation(l, EndUpdate);
  }

  lemma Beginning(l: Lid, recovery: bool, maintenance: bool)
    requires Good(l) && CanStartOta(l, recovery, maintenance)
    ensures
      var l' := TryBeginOta(l, recovery, maintenance);
      && Good(l') && l'.state == OtaUpdating && Extends(l, l')
      && l'.ota.used == (l.ota.used || recovery || maintenance)
      && (recovery || maintenance ==> !l.ota.used && l'.ota.at == Wrap(l.clock))
      && l'.ota.recovery == recovery && l'.ota.maintenance == maintenance && l'.clock == l.clock
  {
    hide Inv, Remembered, Extends, TakeSnapshot, BeginOta;
    BeginFrame(l, recovery, maintenance);
    BeginRecorded(l, recovery, maintenance);
    PerformKeeps(l, BeginUpdate(recovery, maintenance));
    PerformExtends(l, BeginUpdate(recovery, maintenance));
  }

  /** The controller is reserved for this kind of update, since the noted moment. */
  predicate Booked(u: Updater, special: bool) {
    && Special(u.lid) == special && u.reservedAt <= u.lid.clock
    && (special ==> u.lid.ota.at == Wrap(u.reservedAt))
  }

  /** A process in the middle, holding the controller. */
  predicate Holding(u: Updater, special: bool) {
    && Good(u.lid) && u.queue.busy && u.lid.state == OtaUpdating && !u.rebooting
    && (special ==> u.lid.ota.used && Dated(u)) && Booked(u, special)
  }

  lemma HeldGap(u: Updater, special: bool, gap: Gap)
    requires Holding(u, special)
    ensures
      var u' := Interleave(u, gap);
      && Holding(u', special) && u' == u.(lid := u'.lid) && Extends(u.lid, u'.lid)
      && u'.lid.ota == u.lid.ota && Quiet(u.lid.bus.log, u'.lid.bus.log)
  {
    hide Inv, Remembered, Quiet, Prefix;
    BusyGap(u, gap);
  }

  lemma AbortEnds(u: Updater, special: bool)
    requires Good(u.lid) && !u.rebooting && u.watched
    ensures Ended(u, Abort(u), special)
  {
    hide Inv, Remembered, Extends, SafeFlash, FinishOta;
    Ending(u.lid);
  }

  lemma FinishEnds(u: Updater, special: bool)
    requires Good(u.lid) && !u.rebooting && u.watched && (u.lid.state == OtaUpdating ==> special)
    ensures Ended(u, Finish(u, special), special)
  {
    hide Inv, Remembered, Extends, SafeFlash, FinishOta;
    Ending(u.lid);
    Refl(u.lid);
  }

  lemma FlashIsSafe(u: Updater, checked: Lid, special: bool, gap: Gap)
    requires Holding(u, special) && (special ==> u.Fresh())
    requires (InStep(checked) ==> MayGoOn(checked, u.reservedAt)) && Special(checked) == special
    requires AllInput(Pinned(checked.bus.log)) && Extends(checked, u.lid)
    requires Quiet(checked.bus.log, u.lid.bus.log)
    ensures
      var n := Interleave(u, gap);
      && Holding(n, special) && n == u.(lid := n.lid) && Extends(u.lid, n.lid) && n.lid.ota == u.lid.ota
      && SafeFlash(FlashCall(special, u.acceptedAt, u.queue.ttl, u.reservedAt, checked, u.lid, n.lid))
  {
    hide Inv, Remembered, Quiet, Prefix, InStep, MayGoOn, Pinned;
    HeldGap(u, special, gap);
    var n := Interleave(u, gap);
    QuietTrans(checked.bus.log, u.lid.bus.log, n.lid.bus.log);
    if special { SinceIsElapsed(u.lid.clock, u.acceptedAt); }
  }

  lemma CallFlashEnds(u: Updater, checked: Lid, special: bool, s: Script)
    requires Holding(u, special) && (special ==> u.Fresh())
    requires (InStep(checked) ==> MayGoOn(checked, u.reservedAt)) && Special(checked) == special
    requires AllInput(Pinned(checked.bus.log)) && Extends(checked, u.lid)
    requires Quiet(checked.bus.log, u.lid.bus.log)
    ensures Ended(u, CallFlash(u, checked, special, s), special)
  {
    hide Inv, Remembered, Quiet, Extends, InStep, MayGoOn, Pinned, FinishOta, SafeFlash, Interleave;
    FlashIsSafe(u, checked, special, s.flashing);
    var n := Interleave(u, s.flashing);
    Ending(n.lid);
    Trans(u.lid, n.lid, FinishOta(n.lid));
    var f := FlashCall(special, u.acceptedAt, u.queue.ttl, u.reservedAt, checked, u.lid, n.lid);
    assert (u.flashes + [f])[..|u.flashes|] == u.flashes;
    assert (u.flashes + [f])[|u.flashes|] == f;
  }

  /** A later point of the same process. */
  predicate Later(u: Updater, v: Updater) {
    && v == u.(lid := v.lid, reservedAt := v.reservedAt, state := v.state, progress := v.progress, attempts := v.attempts, watched := v.watched)
    && Extends(u.lid, v.lid) && (u.lid.ota.used ==> v.lid.ota.used)
  }

  lemma EndedLater(u: Updater, v: Updater, w: Updater, special: bool)
    requires Later(u, v) && Ended(v, w, special)
    ensures Ended(u, w, special)
  {
    hide Inv, Remembered, Extends, SafeFlash;
    Trans(u.lid, v.lid, w.lid);
  }

  lemma LaterTrans(u: Updater, v: Updater, w: Updater)
    requires Later(u, v) && Later(v, w)
    ensures Later(u, w)
  {
    hide Extends;
    Trans(u.lid, v.lid, w.lid);
  }

  lemma HeldIsolated(l: Lid)
    requires Good(l) && l.state == OtaUpdating
    ensures AllInput(Pinned(l.bus.log))
  {
    hide SafeLog;
  }

  /** What a passed check says about the flash that follows it. */
  lemma RecheckMeans(u: Updater, special: bool, gap: Gap)
    requires Holding(u, special)
    ensures
      var c := Recheck(u, special, gap);
      && Holding(c.now, special) && Later(u, c.now) && c.now == u.(lid := c.now.lid)
      && Quiet(u.lid.bus.log, c.now.lid.bus.log)
      && (c.ok ==> (InStep(u.lid) ==> MayGoOn(u.lid, u.reservedAt)) && (special ==> c.now.Fresh()))
  {
    hide Inv, Remembered, Extends, Quiet, CanContinueOta, Interleave, InStep, MayGoOn;
    Refl(u.lid);
    SelfQuiet(u.lid.bus.log);
    HeldGap(u, special, gap);
    if InStep(u.lid) { ContinuesExactly(u.lid, u.reservedAt); }
  }

  lemma ConnectEnds(u: Updater, special: bool, s: Script)
    requires Holding(u, special)
    ensures Ended(u, Connect(u, special, s), special)
  {
    hide Inv, Remembered, Extends, Quiet, CanContinueOta, Pinned, Interleave, CallFlash, Abort, Ended, Recheck;
    HeldGap(u, special, s.opening);
    var o := Interleave(u, s.opening);
    RecheckMeans(o, special, s.confirming);
    var c := Recheck(o, special, s.confirming);
    HeldIsolated(o.lid);
    LaterTrans(u, o, c.now);
    if c.ok {
      var f := c.now.(progress := Firmware);
      CallFlashEnds(f, o.lid, special, s);
      EndedLater(u, f, CallFlash(f, o.lid, special, s), special);
    } else {
      var f := c.now.(watched := true);
      AbortEnds(f, special);
      EndedLater(u, f, Abort(f), special);
    }
  }

  lemma DelayHolds(u: Updater, special: bool, ms: nat)
    requires Holding(u, special)
    ensures Holding(Delay(u, ms), special) && Later(u, Delay(u, ms)) && Delay(u, ms) == u.(lid := Delay(u, ms).lid)
  {
    hide Inv, Remembered;
    GoodKeeps(u.lid, Advance(ms));
  }

  lemma {:induction false} SettleHolds(u: Updater, special: bool, start: u32, waits: seq<Gap>)
    requires Holding(u, special)
    ensures Holding(Settle(u, start, waits), special) && Later(u, Settle(u, start, waits))
    ensures Settle(u, start, waits).watched == u.watched
    decreases |waits|, if StillTurning(u, start) then 1000 - Since(u.lid.Now(), start) else 0
  {
    hide Inv, Remembered, Extends, Holding, Delay, Later;
    if !StillTurning(u, start) {
      LaterSelf(u);
    } else {
      DelayHolds(u, special, 50);
      var d := Delay(u, 50);
      if waits == [] {
        DelayCounts(u, start);
        SettleHolds(d, special, start, []);
        LaterTrans(u, d, Settle(d, start, []));
      } else {
        GapHolds(d, special, waits[0]);
        var n := Interleave(d, waits[0]);
        LaterTrans(u, d, n);
        SettleHolds(n, special, start, waits[1..]);
        LaterTrans(u, n, Settle(n, start, waits[1..]));
      }
    }
  }

  lemma GapHolds(u: Updater, special: bool, gap: Gap)
    requires Holding(u, special)
    ensures Holding(Interleave(u, gap), special) && Later(u, Interleave(u, gap))
    ensures Interleave(u, gap).watched == u.watched
  {
    hide Inv, Remembered, Extends, Interleave, Quiet;
    HeldGap(u, special, gap);
  }

  lemma LaterSelf(u: Updater)
    ensures Later(u, u)
  {
    Refl(u.lid);
  }

  lemma IsolatedEnds(u: Updater, special: bool, s: Script)
    requires Holding(u, special) && u.watched
    ensures Ended(u, OtaProcess.Isolated(u, special, s), special)
  {
    hide Inv, Remembered, Extends, Interleave, Quiet, CanContinueOta, Connect, Abort, Ended, Recheck, Settle, Delay;
    var start := u.lid.Now();
    SettleHolds(u, special, start, s.waits);
    var a := Settle(u, start, s.waits);
    DelayHolds(a, special, 500);
    var b := Delay(a, 500);
    GapHolds(b, special, s.contacts);
    var w := Interleave(b, s.contacts);
    LaterTrans(u, a, b);
    LaterTrans(u, b, w);
    RecheckMeans(w, special, s.settling);
    var c := Recheck(w, special, s.settling);
    LaterTrans(u, w, c.now);
    if c.ok {
      var f := c.now.(watched := false);
      ConnectEnds(f, special, s);
      EndedLater(u, f, Connect(f, special, s), special);
    } else {
      AbortEnds(c.now, special);
      EndedLater(u, c.now, Abort(c.now), special);
    }
  }

  /** A process at work: `special` ones already hold the controller, plain ones not yet. */
  predicate Working(u: Updater, special: bool) {
    && Good(u.lid) && u.queue.busy && !u.rebooting && u.watched
    && (if special then Holding(u, true) else u.lid.state != OtaUpdating)
  }

  lemma RefuseEnds(u: Updater, special: bool)
    requires Good(u.lid) && u.lid.state != OtaUpdating && !u.rebooting && u.watched
    ensures Ended(u, Refuse(u), special)
  {
    hide Inv, Remembered, Extends;
    Refl(u.lid);
  }

  lemma WorkingGap(u: Updater, special: bool, gap: Gap)
    requires Working(u, special)
    ensures Working(Interleave(u, gap), special) && Later(u, Interleave(u, gap))
    ensures Interleave(u, gap) == u.(lid := Interleave(u, gap).lid)
    ensures Interleave(u, gap).lid.ota == u.lid.ota
  {
    hide Inv, Remembered, Extends, Interleave, Quiet;
    if special { HeldGap(u, true, gap); }
    BusyGap(u, gap);
  }

  lemma PrepareEnds(u: Updater, special: bool, s: Script)
    requires Working(u, special)
    ensures Ended(u, Prepare(u, special, s), special)
  {
    hide Inv, Remembered, Extends, Interleave, CanContinueOta, CanStartOta, OtaProcess.Isolated, Abort, Refuse, Ended, TryBeginOta, Dated;
    WorkingGap(u, special, s.preparing);
    var p := Interleave(u, s.preparing);
    if special {
      AbortEnds(u, true);
      AbortEnds(p, true);
      EndedLater(u, p, Abort(p), true);
      IsolatedEnds(p, true, s);
      EndedLater(u, p, OtaProcess.Isolated(p, true, s), true);
    } else {
      RefuseEnds(u, false);
      RefuseEnds(p, false);
      EndedLater(u, p, Refuse(p), false);
      if CanStartOta(p.lid, false, false) {
        Beginning(p.lid, false, false);
        var b := Reserved(p, false, false);
        IsolatedEnds(b, false, s);
        LaterTrans(u, p, b);
        EndedLater(u, b, OtaProcess.Isolated(b, false, s), false);
      }
    }
  }

  predicate Wanted(manifest: Manifest, maintenance: bool) {
    manifest == OtherVersion || (manifest == SameVersion && maintenance)
  }

  lemma FetchEnds(u: Updater, special: bool, maintenance: bool, s: Script)
    requires Working(u, special)
    ensures Ended(u, Fetch(u, special, maintenance, s), special)
    ensures !Wanted(s.manifest, maintenance) ==> Fetch(u, special, maintenance, s).flashes == u.flashes
  {
    hide Inv, Remembered, Extends, Interleave, Prepare, Ended, FinishOta;
    var begun := u.(attempts := Wrap(u.attempts + 1), progress := VersionCheck, state := Checking,
                    queue := u.queue.(busy := true));
    Refl(u.lid);
    assert Later(u, begun);
    WorkingGap(begun, special, s.fetching);
    var f := Interleave(begun, s.fetching);
    LaterTrans(u, begun, f);
    forall st | st in {Failed, UpToDate} ensures Ended(u, Finish(f.(state := st), special), special) {
      FinishEnds(f.(state := st), special);
      EndedLater(u, f.(state := st), Finish(f.(state := st), special), special);
    }
    PrepareEnds(f.(state := Updating), special, s);
    EndedLater(u, f.(state := Updating), Prepare(f.(state := Updating), special, s), special);
  }

  /** Every exit of the process that is not a reboot leaves the in-progress flag clear,
      the controller out of the update state, and the watchdog subscribed. It calls the
      updater at most once, for a manifest that asks for it, and only safely. */
  lemma ProcessEnds(u: Updater, recovery: bool, maintenance: bool, s: Script)
    requires Working(u, false) && (recovery || maintenance ==> Dated(u))
    ensures
      var u' := Process(u, recovery, maintenance, s);
      && Ended(u, u', recovery || maintenance)
      && (|u'.flashes| > |u.flashes| ==>
            Wanted(s.manifest, maintenance) && (recovery || maintenance ==> !u.lid.ota.used))
  {
    hide Inv, Remembered, Prefix, Interleave, Fetch, Ended, CanStartOta, TryBeginOta, OtaQueue.Queue.Fresh;
    if !(recovery || maintenance) {
      RefuseEnds(u, false);
      FetchEnds(u, false, false, s);
    } else {
      RefuseEnds(u, true);
      WorkingGap(u, false, s.admitting);
      var a := Interleave(u, s.admitting);
      RefuseEnds(a, true);
      EndedLater(u, a, Refuse(a), true);
      if u.Fresh() && CanStartOta(a.lid, recovery, maintenance) {
        Beginning(a.lid, recovery, maintenance);
        var b := Reserved(a, recovery, maintenance);
        FetchEnds(b, true, maintenance, s);
        LaterTrans(u, a, b);
        EndedLater(u, b, Fetch(b, true, maintenance, s), true);
      }
    }
  }
}
