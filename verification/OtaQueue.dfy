/** The one-slot request queue between the tasks that ask for updates and the tasks
    that run them. Each function is one section under the request mutex. */
module OtaQueue {
  import opened Numeric

  const MAX_TTL_MS: u32 := 120000

  /** A pending request, its kind and time stamp, and the in-progress flag. */
  datatype Queue = Queue(
    pending: bool, recovery: bool, maintenance: bool, requestAt: u32, ttl: u32, busy: bool) {

    predicate Fresh(now: u32) {
      Since(now, requestAt) < ttl
    }

    predicate Special() {
      pending && (recovery || maintenance)
    }
  }

  const EMPTY := Queue(false, false, false, 0, 0, false)

  /** What a caller may ask for at all. */
  predicate WellAsked(force: bool, recovery: bool, ttl: u32, maintenance: bool) {
    force && !(recovery && maintenance) && (recovery || maintenance ==> 0 < ttl <= MAX_TTL_MS)
  }

  datatype Answer = Answer(queue: Queue, ok: bool)

  /** A request at counter value `now`. `ready` is the controller's answer, taken
      before the mutex and possibly out of date. */
  function Ask(q: Queue, now: u32, force: bool, recovery: bool, ttl: u32, maintenance: bool, ready: bool): Answer {
    var special := recovery || maintenance;
    if !WellAsked(force, recovery, ttl, maintenance) || !ready || q.busy then Answer(q, false)
    else if q.pending && !(special && ((!q.recovery && !q.maintenance) || !q.Fresh(now))) then Answer(q, false)
    else Answer(Queue(true, recovery, maintenance,
                      if special then now else q.requestAt, if special then ttl else q.ttl, q.busy), true)
  }

  /** A request is accepted exactly when it is one that may be made, the controller was ready
      for it, no process runs, and the slot is free or it is a special one and the one in the
      slot is a plain one or late. The slot then holds it, with its own time stamp if it is
      special. */
  lemma AcceptedExactly(q: Queue, now: u32, force: bool, recovery: bool, ttl: u32, maintenance: bool, ready: bool)
    ensures
      var a, special := Ask(q, now, force, recovery, ttl, maintenance, ready), recovery || maintenance;
      && (a.ok <==>
            && force && !(recovery && maintenance) && (special ==> 0 < ttl <= 120000) && ready && !q.busy
            && (q.pending ==> special && (!q.Special() || Since(now, q.requestAt) >= q.ttl)))
      && (if a.ok then
            && a.queue.pending && !a.queue.busy && a.queue.recovery == recovery && a.queue.maintenance == maintenance
            && (special ==> a.queue.requestAt == now && a.queue.ttl == ttl)
          else a.queue == q)
  {
  }

  /** The runner takes a request: a plain one only while the power is ready for it. */
  function Take(q: Queue, normalReady: bool): Answer {
    if q.busy || !q.pending || (!q.recovery && !q.maintenance && !normalReady) then Answer(q, false)
    else Answer(q.(pending := false, recovery := false, maintenance := false, busy := true), true)
  }

  function Claim(q: Queue): Answer {
    if q.busy || q.pending then Answer(q, false) else Answer(q.(busy := true), true)
  }

  // ---- Any number of tasks ----

  /** Inside: between a successful take or claim and the end of the update process.
      `special` is set for a recovery or forced request, accepted at real time `at`. */
  datatype Phase = Outside | Inside(special: bool, at: nat, ttl: u32)

  /** `acceptedAt` is when the special request now in the slot was accepted. */
  datatype Tasks = Tasks(queue: Queue, clock: nat, acceptedAt: nat, phases: seq<Phase>)

  datatype Step =
    | Pass(ms: nat)
    | Request(force: bool, recovery: bool, ttl: u32, maintenance: bool, ready: bool)
    | TakeBy(task: nat, normalReady: bool)
    | ClaimBy(task: nat)
    | MarkBusy(task: nat)   // the process sets the flag again when it starts
    | Leave(task: nat)      // every exit of the process clears the flag

  function Do(s: Tasks, step: Step): Tasks {
    match step
    case Pass(ms) => s.(clock := s.clock + ms)
    case Request(force, recovery, ttl, maintenance, ready) =>
      var a := Ask(s.queue, Wrap(s.clock), force, recovery, ttl, maintenance, ready);
      s.(queue := a.queue, acceptedAt := if a.ok && (recovery || maintenance) then s.clock else s.acceptedAt)
    case TakeBy(task, normalReady) =>
      var a := Take(s.queue, normalReady);
      if task < |s.phases| && s.phases[task] == Outside && a.ok
      then s.(queue := a.queue, phases := s.phases[task := Inside(s.queue.Special(), s.acceptedAt, s.queue.ttl)])
      else s
    case ClaimBy(task) =>
      var a := Claim(s.queue);
      if task < |s.phases| && s.phases[task] == Outside && a.ok
      then s.(queue := a.queue, phases := s.phases[task := Inside(false, 0, 0)]) else s
    case MarkBusy(task) =>
      if task < |s.phases| && s.phases[task].Inside? then s.(queue := s.queue.(busy := true)) else s
    case Leave(task) =>
      if task < |s.phases| && s.phases[task].Inside?
      then s.(queue := s.queue.(busy := false), phases := s.phases[task := Outside]) else s
  }

  function DoAll(s: Tasks, steps: seq<Step>): Tasks
    decreases |steps|
  {
    if steps == [] then s else DoAll(Do(s, steps[0]), steps[1..])
  }

  function Starting(tasks: nat, clock: nat): Tasks {
    Tasks(EMPTY, clock, 0, seq(tasks, _ => Outside))
  }

  predicate Sound(s: Tasks) {
    && (forall i, j :: 0 <= i < j < |s.phases| ==> s.phases[i] == Outside || s.phases[j] == Outside)
    && ((exists i :: 0 <= i < |s.phases| && s.phases[i].Inside?) ==> s.queue.busy)
    && (s.queue.Special() ==>
          0 < s.queue.ttl <= MAX_TTL_MS && s.queue.requestAt == Wrap(s.acceptedAt) && s.acceptedAt <= s.clock)
    && (forall i :: 0 <= i < |s.phases| && s.phases[i].Inside? && s.phases[i].special ==>
          && s.queue.ttl == s.phases[i].ttl && 0 < s.queue.ttl <= MAX_TTL_MS
          && s.queue.requestAt == Wrap(s.phases[i].at) && s.phases[i].at <= s.clock)
  }

  lemma DoKeeps(s: Tasks, step: Step)
    requires Sound(s)
    ensures Sound(Do(s, step)) && |Do(s, step).phases| == |s.phases|
  {
  }

  lemma {:induction false} AnyTasks(s: Tasks, steps: seq<Step>)
    requires Sound(s)
    ensures Sound(DoAll(s, steps)) && |DoAll(s, steps).phases| == |s.phases|
    decreases |steps|
  {
    if steps != [] {
      DoKeeps(s, steps[0]);
      AnyTasks(Do(s, steps[0]), steps[1..]);
    }
  }

  /** However many tasks run the scheduler, two are never inside an update process at once. */
  lemma OneProcess(tasks: nat, clock: nat, steps: seq<Step>, i: nat, j: nat)
    requires i < j < tasks
    ensures
      var phases := DoAll(Starting(tasks, clock), steps).phases;
      |phases| == tasks && (phases[i] == Outside || phases[j] == Outside)
  {
    AnyTasks(Starting(tasks, clock), steps);
  }

  /** A fresh recovery or forced request keeps its place, its kind and its deadline
      until a runner takes it, whatever else is asked. */
  lemma FreshSpecialStays(s: Tasks, step: Step)
    requires s.queue.Special() && s.queue.Fresh(Wrap(s.clock))
    ensures
      var s' := Do(s, step);
      s'.queue.(busy := s.queue.busy) == s.queue ||
      (step.TakeBy? && !s'.queue.pending && s'.queue.busy &&
       s'.phases == s.phases[step.task := Inside(true, s.acceptedAt, s.queue.ttl)])
  {
  }

  /** When a process inside finds its special request still fresh, less than the
      accepted time to live has passed since acceptance, counted modulo 2^32. */
  lemma FreshMeansInTime(tasks: nat, clock: nat, steps: seq<Step>, i: nat)
    requires
      var s := DoAll(Starting(tasks, clock), steps);
      i < |s.phases| && s.phases[i].Inside? && s.phases[i].special && s.queue.Fresh(Wrap(s.clock))
    ensures
      var s := DoAll(Starting(tasks, clock), steps);
      var waited := s.clock - s.phases[i].at;
      && 0 <= waited && waited % WRAP < s.phases[i].ttl <= MAX_TTL_MS
      && (waited < WRAP ==> waited < s.phases[i].ttl)
  {
    AnyTasks(Starting(tasks, clock), steps);
    var s := DoAll(Starting(tasks, clock), steps);
    SinceIsElapsed(s.clock, s.phases[i].at);
  }
}
