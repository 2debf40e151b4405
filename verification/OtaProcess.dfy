/** The update manager as a value, and its process as a function, cut at every point
    where another task may get in between. */
module OtaProcess {
  import opened Numeric
  import opened Lid
  import opened LidLifecycles
  import opened OtaQueue

  datatype Manifest = NotFetched | Unreadable | SameVersion | OtherVersion

  datatype Flash = FlashFailed | NoUpdate | Flashed

  datatype OtaState = NotAsked | Checking | UpToDate | Updating | Failed | Success

  datatype Progress = NoAttempt | VersionCheck | Firmware | RebootPending

  /** An operation of another task: anything but beginning or ending an update, which
      only the update process does. */
  type ForeignOp = op: Op | Foreign(op) witness CmdOpen

  /** What another task does. `ready` is the controller's answer it got some time before. */
  datatype Other =
    | Operate(op: ForeignOp)
    | AskFor(force: bool, recovery: bool, ttl: u32, maintenance: bool, ready: bool)

  type Gap = seq<Other>

  /** One call of the firmware updater, for the record: when the request it serves was
      accepted, when the controller was reserved for it, and the controller at the last
      power check, at the call, and at its return. */
  datatype FlashCall = FlashCall(
    special: bool, acceptedAt: nat, ttl: u32, reservedAt: nat, checked: Lid, start: Lid, end: Lid)

  datatype Updater = Updater(
    lid: Lid, queue: Queue, acceptedAt: nat, reservedAt: nat, state: OtaState, progress: Progress, attempts: u32,
    watched: bool, rebooting: bool, lastScheduleCheck: u32, lastRunTime: u32, lastRunDay: int,
    automaticRuns: nat,
    flashes: seq<FlashCall>) {

    predicate Fresh() {
      queue.Fresh(lid.Now())
    }
  }

  function AtBoot(lid: Lid): Updater {
    Updater(lid, EMPTY, 0, 0, NotAsked, NoAttempt, 0, true, false, 0, 0, -1, 0, [])
  }

  function Asked(u: Updater, force: bool, recovery: bool, ttl: u32, maintenance: bool, ready: bool): Updater {
    var a := Ask(u.queue, u.lid.Now(), force, recovery, ttl, maintenance, ready);
    if a.ok
    then u.(queue := a.queue, state := Checking,
            acceptedAt := if recovery || maintenance then u.lid.clock else u.acceptedAt)
    else u
  }

  function Disturbed(u: Updater, other: Other): Updater {
    match other
    case Operate(op) => u.(lid := Perform(u.lid, op))
    case AskFor(force, recovery, ttl, maintenance, ready) => Asked(u, force, recovery, ttl, maintenance, ready)
  }

  function Interleave(u: Updater, gap: Gap): Updater
    decreases |gap|
  {
    if gap == [] then u else Interleave(Disturbed(u, gap[0]), gap[1..])
  }

  // ---- The process ----

  /** Everything one process finds on its way. */
  datatype Script = Script(
    admitting: Gap,    // between the freshness test and the reservation of a special request
    fetching: Gap,     // while the manifest is fetched
    manifest: Manifest,
    preparing: Gap,    // between the two tests that follow
    waits: seq<Gap>,   // in each wait for the motor current to fall, as far as anything happens
    contacts: Gap,     // while the contacts separate
    settling: Gap, opening: Gap, confirming: Gap,
    flashing: Gap, flash: Flash)

  function Refuse(u: Updater): Updater {
    u.(state := Failed, queue := u.queue.(busy := false))
  }

  function Abort(u: Updater): Updater {
    u.(state := Failed, lid := FinishOta(u.lid), queue := u.queue.(busy := false))
  }

  function Finish(u: Updater, special: bool): Updater {
    u.(lid := if special && u.lid.state == OtaUpdating then FinishOta(u.lid) else u.lid,
       queue := u.queue.(busy := false))
  }

  function Reserved(u: Updater, recovery: bool, maintenance: bool): Updater {
    u.(lid := TryBeginOta(u.lid, recovery, maintenance), reservedAt := u.lid.clock)
  }

  function Process(u: Updater, recovery: bool, maintenance: bool, s: Script): Updater {
    if !(recovery || maintenance) then
      if !CanStartOta(u.lid, false, false) then Refuse(u) else Fetch(u, false, false, s)
    else if !u.Fresh() then Refuse(u)
    else
      var u := Interleave(u, s.admitting);
      if !CanStartOta(u.lid, recovery, maintenance) then Refuse(u)
      else Fetch(Reserved(u, recovery, maintenance), true, maintenance, s)
  }

  /** A forced request flashes whatever version the manifest names, if it names one. */
  function Fetch(u: Updater, special: bool, maintenance: bool, s: Script): Updater {
    var begun := u.(attempts := Wrap(u.attempts + 1), progress := VersionCheck, state := Checking,
                    queue := u.queue.(busy := true));
    var u := Interleave(begun, s.fetching);
    if s.manifest == NotFetched || s.manifest == Unreadable then Finish(u.(state := Failed), special)
    else if s.manifest == SameVersion && !maintenance then Finish(u.(state := UpToDate), special)
    else Prepare(u.(state := Updating), special, s)
  }

  function Prepare(u: Updater, special: bool, s: Script): Updater {
    if special then
      if !u.Fresh() then Abort(u)
      else
        var u := Interleave(u, s.preparing);
        if CanContinueOta(u.lid) then Isolated(u, true, s) else Abort(u)
    else if !CanStartOta(u.lid, false, false) then Refuse(u)
    else
      var u := Interleave(u, s.preparing);
      if !CanStartOta(u.lid, false, false) then Refuse(u)
      else Isolated(Reserved(u, false, false), false, s)
  }

  function Delay(u: Updater, ms: nat): Updater {
    u.(lid := Perform(u.lid, Advance(ms)))
  }

  predicate StillTurning(u: Updater, start: u32) {
    Fin(50.0).Lt(u.lid.motorCurrent) && Since(u.lid.Now(), start) < 1000
  }

  /** Waits in steps of 50 ms, at most a second by the counter, for the motor current to fall. */
  function Settle(u: Updater, start: u32, waits: seq<Gap>): Updater
    decreases |waits|, if StillTurning(u, start) then 1000 - Since(u.lid.Now(), start) else 0
  {
    if !StillTurning(u, start) then u
    else if waits == [] then
      DelayCounts(u, start);
      Settle(Delay(u, 50), start, [])
    else Settle(Interleave(Delay(u, 50), waits[0]), start, waits[1..])
  }

  lemma DelayCounts(u: Updater, start: u32)
    requires Since(u.lid.Now(), start) < 1000
    ensures Since(Delay(u, 50).lid.Now(), start) == Since(u.lid.Now(), start) + 50
  {
    SinceIsElapsed(u.lid.clock + 50, u.lid.clock);
    SinceAdds(start, u.lid.Now(), Wrap(u.lid.clock + 50));
  }

  datatype Checked = Checked(now: Updater, ok: bool)

  /** The power, and for a special request then its time to live. */
  function Recheck(u: Updater, special: bool, gap: Gap): Checked {
    if !CanContinueOta(u.lid) then Checked(u, false)
    else if !special then Checked(u, true)
    else
      var u := Interleave(u, gap);
      Checked(u, u.Fresh())
  }

  function Isolated(u: Updater, special: bool, s: Script): Updater {
    var waited := Interleave(Delay(Settle(u, u.lid.Now(), s.waits), 500), s.contacts);
    var first := Recheck(waited, special, s.settling);
    if !first.ok then Abort(first.now) else Connect(first.now.(watched := false), special, s)
  }

  function Connect(u: Updater, special: bool, s: Script): Updater {
    var u := Interleave(u, s.opening);
    var second := Recheck(u, special, s.confirming);
    if !second.ok then Abort(second.now.(watched := true))
    else CallFlash(second.now.(progress := Firmware), u.lid, special, s)
  }

  function CallFlash(u: Updater, checked: Lid, special: bool, s: Script): Updater {
    var n := Interleave(u, s.flashing);
    var n := n.(flashes := n.flashes + [FlashCall(special, u.acceptedAt, u.queue.ttl, u.reservedAt, checked, u.lid, n.lid)]);
    Concluded(n, special, s.flash)
  }

  function Concluded(u: Updater, special: bool, flash: Flash): Updater {
    match flash
    case FlashFailed => Finish(u.(state := Failed, watched := true, lid := FinishOta(u.lid)), special)
    case NoUpdate => Finish(u.(state := UpToDate, watched := true, lid := FinishOta(u.lid)), special)
    case Flashed => u.(state := Success, progress := RebootPending, rebooting := true)
  }

  // ---- The scheduler ----

  datatype LocalTime = LocalTime(hour: int, year: int, yday: int) {
    function Day(): int {
      year * 400 + yday
    }
  }

  /** What one call of the scheduler finds. */
  datatype Round = Round(
    connected: bool, before: Gap, after: Gap, time: Option<LocalTime>, otaHour: int, script: Script)

  function Serve(u: Updater, r: Round): Updater {
    if !r.connected then u
    else
      var normalReady := CanStartOta(u.lid, false, false);
      var u := Interleave(u, r.before);
      var take := Take(u.queue, normalReady);
      if take.ok then ServeRequest(u.(queue := take.queue), u.queue.recovery, u.queue.maintenance, r)
      else if !normalReady then u
      else Schedule(u, r)
  }

  function ServeRequest(u: Updater, recovery: bool, maintenance: bool, r: Round): Updater {
    var u := Interleave(u, r.after);
    if (recovery || maintenance) && !u.Fresh() then Refuse(u) else Process(u, recovery, maintenance, r.script)
  }

  function Schedule(u: Updater, r: Round): Updater {
    var now := u.lid.Now();
    if Since(now, u.lastScheduleCheck) < 30000 then u
    else
      var u := u.(lastScheduleCheck := now);
      var claim := Claim(u.queue);
      if u.lastRunTime == 0 then
        if !claim.ok then u else RunAutomatic(u.(queue := claim.queue), r.time, now, r)
      else if r.time.None? || r.time.value.hour < r.otaHour || u.lastRunDay == r.time.value.Day() || !claim.ok then u
      else RunAutomatic(u.(queue := claim.queue), r.time, now, r)
  }

  /** The first run of a boot may not know the day; then it leaves the day's run open. */
  function RunAutomatic(u: Updater, time: Option<LocalTime>, now: u32, r: Round): Updater {
    var noted := u.(lastRunTime := now, lastRunDay := if time.None? then u.lastRunDay else time.value.Day(),
                    automaticRuns := u.automaticRuns + 1);
    Process(Interleave(noted, r.after), false, false, r.script)
  }

  /** Rounds of the scheduler with other tasks in between, until the device reboots. */
  function ServeAll(u: Updater, rounds: seq<(Gap, Round)>): Updater
    decreases |rounds|
  {
    if rounds == [] || u.rebooting then u
    else ServeAll(Serve(Interleave(u, rounds[0].0), rounds[0].1), rounds[1..])
  }
}
