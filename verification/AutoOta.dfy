/** The update manager as the firmware runs it: shared flags that the tasks update in
    place, and the long process that drives the lid controller. Each method is proved
    equal to the function of the same step on `Updater`. */
module AutoOta {
  import opened Numeric
  import opened Lid
  import opened LidController
  import opened OtaQueue
  import opened OtaProcess
  import opened OtaTheorems

  datatype Status = Status(state: OtaState, phase: Progress, attempts: u32)

  datatype Schedule = Schedule(lastCheck: u32, lastRunTime: u32, lastRunDay: int)

  class AutoOtaManager {
    const controller: Controller
    var requests: Queue       // the request slot and the in-progress flag
    var status: Status
    var schedule: Schedule
    var watched: bool         // the network task is subscribed to the watchdog
    var rebooting: bool
    ghost var acceptedAt: nat
    ghost var reservedAt: nat
    ghost var automaticRuns: nat
    ghost var flashes: seq<FlashCall>

    ghost predicate Fit()
      reads this, controller, controller.hw, controller.battery, controller.filter, controller.filter.history
    {
      controller.Valid()
    }

    /** What holds between two rounds of the scheduler, whatever has been asked meanwhile. */
    ghost predicate Valid()
      reads this, controller, controller.hw, controller.battery, controller.filter, controller.filter.history
    {
      Fit() && Sane(Value())
    }

    ghost function Value(): Updater
      reads this, controller, controller.hw, controller.battery
    {
      Updater(controller.State(), requests, acceptedAt, reservedAt, status.state, status.phase, status.attempts, watched, rebooting,
              schedule.lastCheck, schedule.lastRunTime, schedule.lastRunDay, automaticRuns, flashes)
    }

    /** What the process reads of the controller directly. */
    lemma Seen()
      ensures Value().lid.Now() == controller.hw.Millis() && Value().lid.clock == controller.hw.clock
      ensures Value().lid.motorCurrent == controller.motorCurrent && Value().lid.state == controller.state
    {
    }

    constructor (controller: Controller)
      requires controller.Valid() && controller.state != OtaUpdating
      ensures Valid() && this.controller == controller && Value() == AtBoot(controller.State())
    {
      this.controller := controller;
      requests, status, schedule := EMPTY, Status(NotAsked, NoAttempt, 0), Schedule(0, 0, -1);
      watched, rebooting := true, false;
      acceptedAt, reservedAt, automaticRuns, flashes := 0, 0, 0, [];
      new;
      StartsSane(controller.State());
    }

    predicate RecoveryRequestFresh()
      reads this, controller, controller.hw
    {
      requests.Fresh(controller.hw.Millis())
    }

    /** The part of a request that runs under the mutex. */
    method Enter(force: bool, recovery: bool, ttl: u32, maintenance: bool, ready: bool) returns (accepted: bool)
      modifies this
      ensures Value() == Asked(old(Value()), force, recovery, ttl, maintenance, ready)
      ensures accepted == Ask(old(requests), old(controller.hw.Millis()), force, recovery, ttl, maintenance, ready).ok
    {
      hide Controller.Valid, Controller.State;
      Seen();
      if !force || (recovery && maintenance) || ((recovery || maintenance) && (ttl == 0 || ttl > 120000)) {
        return false;
      }
      if !ready { return false; }
      if requests.busy { return false; }
      if requests.pending &&
         !((recovery || maintenance) && ((!requests.recovery && !requests.maintenance) || !RecoveryRequestFresh())) {
        return false;
      }
      Store(recovery, maintenance, ttl);
      accepted := true;
    }

    method Store(recovery: bool, maintenance: bool, ttl: u32)
      modifies this
      ensures
        var special := recovery || maintenance;
        var now := old(controller.hw.Millis());
        Value() == old(Value()).(
          state := Checking, acceptedAt := if special then old(controller.hw.clock) else old(acceptedAt),
          queue := Queue(true, recovery, maintenance, if special then now else old(requests).requestAt,
                         if special then ttl else old(requests).ttl, old(requests).busy))
    {
      hide Controller.Valid, Controller.State;
      requests := requests.(recovery := recovery, maintenance := maintenance);
      if recovery || maintenance {
        requests := requests.(requestAt := controller.hw.Millis(), ttl := ttl);
        acceptedAt := controller.hw.clock;
      }
      requests := requests.(pending := true);
      status := status.(state := Checking);
    }

    /** A request for an update. The controller is asked first, outside the mutex. */
    method StartOtaUpdate(force: bool, recovery: bool, ttl: u32, maintenance: bool) returns (accepted: bool)
      requires Valid() && !rebooting
      modifies this
      ensures Valid() && !rebooting
      ensures
        var ready := CanStartOta(old(controller.State()), recovery, maintenance);
        Value() == Asked(old(Value()), force, recovery, ttl, maintenance, ready)
      ensures accepted ==> requests.pending && CanStartOta(old(controller.State()), recovery, maintenance)
    {
      hide Controller.Valid, CanStartOta, Controller.State, Sane;
      var ready := CanStartOta(controller.State(), recovery, maintenance);
      SaneStep(Value(), AskFor(force, recovery, ttl, maintenance, ready));
      accepted := Enter(force, recovery, ttl, maintenance, ready);
    }

    method TakeManualRequest(normalReady: bool) returns (ok: bool, recovery: bool, maintenance: bool)
      modifies this
      ensures
        var take := Take(old(requests), normalReady);
        && ok == take.ok && Value() == old(Value()).(queue := take.queue)
        && (ok ==> recovery == old(requests).recovery && maintenance == old(requests).maintenance)
    {
      hide Controller.Valid, Controller.State;
      if requests.busy || !requests.pending || (!requests.recovery && !requests.maintenance && !normalReady) {
        return false, false, false;
      }
      recovery, maintenance := requests.recovery, requests.maintenance;
      requests := requests.(pending := false, recovery := false, maintenance := false, busy := true);
      ok := true;
    }

    method ClaimAutomaticRequest() returns (ok: bool)
      modifies this
      ensures
        var claim := Claim(old(requests));
        ok == claim.ok && Value() == old(Value()).(queue := claim.queue)
    {
      hide Controller.Valid, Controller.State;
      if requests.busy || requests.pending { return false; }
      requests := requests.(busy := true);
      ok := true;
    }

    /** Whatever the other tasks do now. */
    method LetOthersRun(gap: Gap)
      requires Fit()
      modifies this, controller, controller.hw, controller.battery, controller.filter, controller.filter.history
      ensures Fit() && Value() == Interleave(old(Value()), gap)
      decreases |gap|
    {
      hide Controller.Valid, Perform, Asked;
      if gap != [] {
        match gap[0] {
          case Operate(op) => controller.Do(op);
          case AskFor(force, recovery, ttl, maintenance, ready) =>
            var _ := Enter(force, recovery, ttl, maintenance, ready);
        }
        LetOthersRun(gap[1..]);
      }
    }

    // ---- The process ----

    method Refused()
      modifies this
      ensures Value() == Refuse(old(Value()))
    {
      hide Controller.Valid, Controller.State;
      status := status.(state := Failed);
      requests := requests.(busy := false);
    }

    method Aborted()
      requires Fit()
      modifies this, controller, controller.hw, controller.battery, controller.filter, controller.filter.history
      ensures Fit() && Value() == Abort(old(Value()))
    {
      hide Controller.Valid, FinishOta, Controller.State;
      status := status.(state := Failed);
      controller.EndUpdate();
      requests := requests.(busy := false);
    }

    method RunOtaProcess(recovery: bool, maintenance: bool, s: Script)
      requires Fit()
      modifies this, controller, controller.hw, controller.battery, controller.filter, controller.filter.history
      ensures Fit() && Value() == Process(old(Value()), recovery, maintenance, s)
    {
      hide Controller.Valid, Interleave, CanStartOta, BeginOta, Fetch, Refuse;
      if recovery || maintenance {
        if !RecoveryRequestFresh() { Refused(); return; }
        LetOthersRun(s.admitting);
        ghost var at := controller.hw.clock;
        var begun := controller.BeginUpdate(recovery, maintenance);
        if !begun { Refused(); return; }
        reservedAt := at;
      } else if !CanStartOta(controller.State(), false, false) {
        Refused();
        return;
      }
      FetchManifest(recovery || maintenance, maintenance, s);
    }

    method FetchManifest(special: bool, maintenance: bool, s: Script)
      requires Fit()
      modifies this, controller, controller.hw, controller.battery, controller.filter, controller.filter.history
      ensures Fit() && Value() == Fetch(old(Value()), special, maintenance, s)
    {
      hide Controller.Valid, Interleave, Prepare, Finish, Controller.State;
      BeginAttempt();
      LetOthersRun(s.fetching);
      var needsUpdate := Judge(s.manifest, maintenance);
      if needsUpdate {
        PrepareUpdate(special, s);
      } else {
        Leave(special);
      }
    }

    method BeginAttempt()
      modifies this
      ensures
        var was := old(Value());
        Value() == was.(attempts := Wrap(was.attempts + 1), progress := VersionCheck, state := Checking,
                        queue := was.queue.(busy := true))
    {
      hide Controller.Valid, Controller.State;
      status := status.(attempts := Wrap(status.attempts + 1), phase := VersionCheck);
      requests := requests.(busy := true);
      status := status.(state := Checking);
    }

    method Judge(manifest: Manifest, maintenance: bool) returns (needsUpdate: bool)
      modifies this
      ensures needsUpdate <==> manifest == OtherVersion || (maintenance && manifest == SameVersion)
      ensures
        Value() == old(Value()).(state := if needsUpdate then Updating
                                          else if manifest == SameVersion then UpToDate else Failed)
    {
      hide Controller.Valid, Controller.State;
      needsUpdate := false;
      if manifest == NotFetched || manifest == Unreadable {
        status := status.(state := Failed);
      } else if maintenance || manifest == OtherVersion {
        needsUpdate := true;
        status := status.(state := Updating);
      } else {
        status := status.(state := UpToDate);
      }
    }

    /** The common end of the process. */
    method Leave(special: bool)
      requires Fit()
      modifies this, controller, controller.hw, controller.battery, controller.filter, controller.filter.history
      ensures Fit() && Value() == Finish(old(Value()), special)
    {
      hide Controller.Valid, FinishOta;
      if special && controller.state == OtaUpdating { controller.EndUpdate(); }
      requests := requests.(busy := false);
    }

    method PrepareUpdate(special: bool, s: Script)
      requires Fit()
      modifies this, controller, controller.hw, controller.battery, controller.filter, controller.filter.history
      ensures Fit() && Value() == Prepare(old(Value()), special, s)
    {
      hide Controller.Valid, Interleave, CanStartOta, CanContinueOta, BeginOta, OtaProcess.Isolated, Refuse, Abort;
      if special {
        if !RecoveryRequestFresh() { Aborted(); return; }
        LetOthersRun(s.preparing);
        if !CanContinueOta(controller.State()) { Aborted(); return; }
      } else {
        if !CanStartOta(controller.State(), false, false) { Refused(); return; }
        LetOthersRun(s.preparing);
        ghost var at := controller.hw.clock;
        var begun := controller.BeginUpdate(false, false);
        if !begun { Refused(); return; }
        reservedAt := at;
      }
      FlashIsolated(special, s);
    }

    method DelayFor(ms: nat)
      requires Fit()
      modifies controller, controller.hw, controller.battery, controller.filter, controller.filter.history
      ensures Fit() && Value() == Delay(old(Value()), ms)
    {
      hide Controller.Valid;
      controller.Do(Advance(ms));
    }

    /** Waits for the motor current to fall, at most a second. */
    method WaitForMotor(waits: seq<Gap>)
      requires Fit()
      modifies this, controller, controller.hw, controller.battery, controller.filter, controller.filter.history
      ensures Fit() && Value() == Settle(old(Value()), old(controller.hw.Millis()), waits)
    {
      hide Controller.Valid, Interleave, Controller.State, Delay;
      Seen();
      var start := controller.hw.Millis();
      var left := waits;
      while Fin(50.0).Lt(controller.motorCurrent) && Since(controller.hw.Millis(), start) < 1000
        invariant Fit() && Settle(Value(), start, left) == Settle(old(Value()), start, waits)
        decreases |left|, if StillTurning(Value(), start) then 1000 - Since(controller.hw.Millis(), start) else 0
      {
        ghost var before := Value();
        Seen();
        DelayFor(50);
        if left != [] {
          LetOthersRun(left[0]);
          left := left[1..];
        } else {
          DelayCounts(before, start);
        }
        Seen();
      }
      Seen();
    }

    method CheckAgain(special: bool, gap: Gap) returns (ok: bool)
      requires Fit()
      modifies this, controller, controller.hw, controller.battery, controller.filter, controller.filter.history
      ensures Fit() && Checked(Value(), ok) == Recheck(old(Value()), special, gap)
    {
      hide Controller.Valid, Interleave, CanContinueOta;
      if !CanContinueOta(controller.State()) { return false; }
      if !special { return true; }
      LetOthersRun(gap);
      ok := RecoveryRequestFresh();
    }

    method FlashIsolated(special: bool, s: Script)
      requires Fit()
      modifies this, controller, controller.hw, controller.battery, controller.filter, controller.filter.history
      ensures Fit() && Value() == OtaProcess.Isolated(old(Value()), special, s)
    {
      hide Controller.Valid, Interleave, Controller.State, Settle, Delay, Recheck, Abort, Connect;
      Seen();
      WaitForMotor(s.waits);
      DelayFor(500);
      LetOthersRun(s.contacts);
      var ok := CheckAgain(special, s.settling);
      if !ok { Aborted(); return; }
      watched := false;
      ConnectAndFlash(special, s);
    }

    method ConnectAndFlash(special: bool, s: Script)
      requires Fit()
      modifies this, controller, controller.hw, controller.battery, controller.filter, controller.filter.history
      ensures Fit() && Value() == Connect(old(Value()), special, s)
    {
      hide Controller.Valid, Interleave, Controller.State, Recheck, Abort, CallFlash;
      LetOthersRun(s.opening);
      ghost var checked := controller.State();
      var ok := CheckAgain(special, s.confirming);
      if !ok {
        watched := true;
        Aborted();
        return;
      }
      status := status.(phase := Firmware);
      CallUpdater(checked, special, s);
    }

    method CallUpdater(ghost checked: Lid, special: bool, s: Script)
      requires Fit()
      modifies this, controller, controller.hw, controller.battery, controller.filter, controller.filter.history
      ensures Fit() && Value() == CallFlash(old(Value()), checked, special, s)
    {
      hide Controller.Valid, Interleave, Concluded, Controller.State;
      ghost var start := Value();
      LetOthersRun(s.flashing);
      flashes := flashes + [FlashCall(special, start.acceptedAt, start.queue.ttl, start.reservedAt, checked, start.lid,
                                    Value().lid)];
      Conclude(special, s.flash);
    }

    method Conclude(special: bool, flash: Flash)
      requires Fit()
      modifies this, controller, controller.hw, controller.battery, controller.filter, controller.filter.history
      ensures Fit() && Value() == Concluded(old(Value()), special, flash)
    {
      hide Controller.Valid, FinishOta, Finish, Controller.State;
      if flash == Flashed {
        status := status.(state := Success, phase := RebootPending);
        rebooting := true;
        return;
      }
      status := status.(state := if flash == FlashFailed then Failed else UpToDate);
      watched := true;
      controller.EndUpdate();
      Leave(special);
    }

    // ---- The scheduler ----

    method Update(r: Round)
      requires Valid() && !rebooting
      modifies this, controller, controller.hw, controller.battery, controller.filter, controller.filter.history
      ensures Valid() && Value() == Serve(old(Value()), r)
      ensures !rebooting ==> !requests.busy && controller.state != OtaUpdating && watched
    {
      hide Controller.Valid, Interleave, CanStartOta, ServeRequest, OtaProcess.Schedule, Controller.State, Sane;
      ServeSane(Value(), r);
      SaneMeans(Serve(Value(), r));
      if !r.connected {
        Seen();
        return;
      }
      var normalReady := CanStartOta(controller.State(), false, false);
      LetOthersRun(r.before);
      var taken, recovery, maintenance := TakeManualRequest(normalReady);
      if taken {
        RunRequest(recovery, maintenance, r);
      } else if normalReady {
        RunSchedule(r);
      }
      Seen();
    }

    method RunRequest(recovery: bool, maintenance: bool, r: Round)
      requires Fit()
      modifies this, controller, controller.hw, controller.battery, controller.filter, controller.filter.history
      ensures Fit() && Value() == ServeRequest(old(Value()), recovery, maintenance, r)
    {
      hide Controller.Valid, Interleave, Process, Refuse;
      LetOthersRun(r.after);
      if (recovery || maintenance) && !RecoveryRequestFresh() { Refused(); return; }
      RunOtaProcess(recovery, maintenance, r.script);
    }

    method RunSchedule(r: Round)
      requires Fit()
      modifies this, controller, controller.hw, controller.battery, controller.filter, controller.filter.history
      ensures Fit() && Value() == OtaProcess.Schedule(old(Value()), r)
    {
      hide Controller.Valid, Interleave, RunAutomatic, Controller.State;
      Seen();
      var now := controller.hw.Millis();
      if Since(now, schedule.lastCheck) < 30000 { return; }
      schedule := schedule.(lastCheck := now);
      if schedule.lastRunTime != 0 {
        if r.time.None? { return; }
        if r.time.value.hour < r.otaHour { return; }
        if schedule.lastRunDay == r.time.value.Day() { return; }
      }
      var claimed := ClaimAutomaticRequest();
      if claimed { RunClaimed(now, r); }
    }

    method RunClaimed(now: u32, r: Round)
      requires Fit()
      modifies this, controller, controller.hw, controller.battery, controller.filter, controller.filter.history
      ensures Fit() && Value() == RunAutomatic(old(Value()), r.time, now, r)
    {
      hide Controller.Valid, Interleave, Process, Controller.State;
      schedule := schedule.(lastRunTime := now,
                            lastRunDay := if r.time.Some? then r.time.value.Day() else schedule.lastRunDay);
      automaticRuns := automaticRuns + 1;
      LetOthersRun(r.after);
      RunOtaProcess(false, false, r.script);
    }
  }
}
