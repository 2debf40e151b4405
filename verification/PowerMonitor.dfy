/** The observer on the storage server: it judges one telemetry sample a minute, turns
    changes into events, and hands them to the notifier one at a time. */
module PowerMonitor {
  import opened Numeric

  datatype Status =
    | Normal | PowerCaution | EnergySaving | BatteryProtected | RecoveryWait | PowerSensorFault | Initializing
    | LowBattery | WarningPolicyUnavailable | Offline | SourceUnavailable | SourceInvalid | LegacyFirmware
    | Recovered

  datatype Severity = Info | Attention

  /** The numeric fields of one telemetry record; any of them may be missing, and a
      number read from text may be anything. */
  datatype Sample = Sample(
    at: Float, schema: Option<Float>, interval: Option<Float>, state: Option<Float>,
    sampleAgeMs: Option<Float>, valid: Option<Float>, voltage: Option<Float>,
    warningSchema: Option<Float>, warningActive: Option<Float>, warningElapsed: Option<Float>,
    warningVoltage: Option<Float>, warningRequired: Option<Float>)

  /** `warningActive` is known only if the whole sample was in order. */
  datatype Observation = Observation(
    status: Status, severity: Severity, voltage: Option<real>, warningActive: Option<bool>)

  function Bare(status: Status): Observation {
    Observation(status, Attention, None, None)
  }

  predicate Equals(field: Option<Float>, r: real) {
    field == Some(Fin(r))
  }

  predicate Between(field: Option<Float>, low: real, high: real) {
    field.Some? && field.value.Fin? && low <= field.value.r <= high
  }

  function StateOf(code: Option<Float>): Option<Status> {
    if Equals(code, 0.0) then Some(Normal)
    else if Equals(code, 1.0) then Some(PowerCaution)
    else if Equals(code, 2.0) then Some(EnergySaving)
    else if Equals(code, 3.0) then Some(BatteryProtected)
    else if Equals(code, 4.0) then Some(RecoveryWait)
    else if Equals(code, 5.0) then Some(PowerSensorFault)
    else if Equals(code, 6.0) then Some(Initializing)
    else None
  }

  predicate KnownInterval(field: Option<Float>) {
    Equals(field, 30.0) || Equals(field, 60.0) || Equals(field, 120.0) || Equals(field, 300.0)
  }

  predicate GoodReading(s: Sample) {
    Equals(s.valid, 1.0) && Between(s.sampleAgeMs, 0.0, 2000.0) && Between(s.voltage, 0.0, 16.0) && !Equals(s.voltage, 0.0)
  }

  predicate WarningFieldsPresent(s: Sample) {
    s.warningSchema.Some? && s.warningActive.Some? && s.warningElapsed.Some? &&
    s.warningVoltage.Some? && s.warningRequired.Some?
  }

  predicate Whole(r: real) {
    r.Floor as real == r
  }

  /** The warning fields prove what they say: active exactly at the full five minutes,
      and no time counted above the warning voltage. */
  predicate ConsistentWarning(s: Sample, voltage: real) {
    && (Equals(s.warningActive, 0.0) || Equals(s.warningActive, 1.0))
    && Between(s.warningElapsed, 0.0, 300.0) && Whole(s.warningElapsed.value.r)
    && Equals(s.warningVoltage, 11.0) && Equals(s.warningRequired, 300.0)
    && (Equals(s.warningActive, 1.0) <==> Equals(s.warningElapsed, 300.0))
    && (s.warningElapsed.value.r > 0.0 ==> voltage <= 11.0)
  }

  /** None stands for no sample at all. */
  function Evaluate(sample: Option<Sample>, now: real): Observation {
    match sample
    case None => Bare(Offline)
    case Some(s) =>
      if !s.at.Fin? || now - s.at.r < -5.0 then Bare(SourceInvalid)
      else
        var age := now - s.at.r;
        if !Equals(s.schema, 1.0) then Bare(if age > 90.0 then Offline else LegacyFirmware)
        else if !KnownInterval(s.interval) || StateOf(s.state).None? then Bare(SourceInvalid)
        else if age > 2.0 * s.interval.value.r + 30.0 then Bare(Offline)
        else if !GoodReading(s) then Bare(PowerSensorFault)
        else
          var voltage := s.voltage.value.r;
          var read := Bare(SourceInvalid).(voltage := Some(voltage));
          if !WarningFieldsPresent(s) || !Equals(s.warningSchema, 1.0) then read.(status := WarningPolicyUnavailable)
          else if !ConsistentWarning(s, voltage) then read
          else
            var active := Equals(s.warningActive, 1.0);
            Observation(if active then LowBattery else StateOf(s.state).value,
                        if active || StateOf(s.state) == Some(PowerSensorFault) then Attention else Info,
                        Some(voltage), Some(active))
  }

  // ---- Changes become events ----

  datatype Event = Event(status: Status, severity: Severity, at: int, voltage: Option<real>)

  datatype Watch = Watch(
    active: Option<Status>, candidate: Option<Status>, candidateSince: Option<real>,
    current: Option<Observation>, observedAt: Option<real>, lastAccepted: Option<real>, pending: seq<Event>)

  const EMPTY_WATCH := Watch(None, None, None, None, None, None, [])

  predicate PowerOnly(s: Status) {
    s in {Normal, PowerCaution, EnergySaving, BatteryProtected, RecoveryWait, Initializing}
  }

  /** What the owner is told about an observation: power modes are not told. */
  function Told(o: Observation): Status {
    if o.warningActive == Some(true) then LowBattery else if PowerOnly(o.status) then Normal else o.status
  }

  function Truncated(t: real): int {
    if t < 0.0 then -((-t).Floor) else t.Floor
  }

  function Active(w: Watch): Status {
    if w.active.Some? then w.active.value else Normal
  }

  datatype Advanced = Advanced(watch: Watch, event: Option<Event>)

  function Advance(w: Watch, o: Observation, now: real): Advanced {
    var status := Told(o);
    var since := if w.candidateSince.Some? then w.candidateSince.value else now;
    var restarted := w.candidate != Some(status) || now < since;
    var noted := w.(current := Some(o), observedAt := Some(now),
                    candidate := if restarted then Some(status) else w.candidate,
                    candidateSince := if restarted then Some(now) else w.candidateSince);
    if status == Active(w) then Advanced(noted, None)
    else Advanced(noted.(active := Some(status)),
                  Some(Event(if status == Normal then Recovered else status, o.severity, Truncated(now), o.voltage)))
  }

  /** The statuses the notifier has a message for. */
  const VOCABULARY: set<Status> :=
    {LowBattery, WarningPolicyUnavailable, EnergySaving, BatteryProtected, RecoveryWait, PowerSensorFault,
     Offline, SourceUnavailable, SourceInvalid, LegacyFirmware, Initializing, Recovered}

  // ---- One cycle ----

  /** What the query gave: a sample or none, a record that cannot be read, or nothing at all. */
  datatype Fetched = Fetched(sample: Option<Sample>) | BadFormat | Unreachable

  function Observed(f: Fetched, now: real): Observation {
    match f
    case Fetched(sample) => Evaluate(sample, now)
    case BadFormat => Bare(SourceInvalid)
    case Unreachable => Bare(SourceUnavailable)
  }

  /** Events of the superseded policy are dropped, and a low battery that is over. */
  predicate Keeps(e: Event, o: Observation) {
    && e.status !in {EnergySaving, BatteryProtected, RecoveryWait, PowerCaution}
    && !(e.status == LowBattery && o.warningActive != Some(true))
  }

  function Kept(pending: seq<Event>, o: Observation): seq<Event> {
    if pending == [] then []
    else if Keeps(pending[0], o) then [pending[0]] + Kept(pending[1..], o)
    else Kept(pending[1..], o)
  }

  function Latest(events: seq<Event>, bound: nat): seq<Event> {
    if |events| <= bound then events else events[|events| - bound..]
  }

  const QUEUE: nat := 16

  function Queued(w: Watch, f: Fetched, now: real): Watch {
    var o := Observed(f, now);
    var a := Advance(w, o, now);
    var kept := Kept(w.pending, o);
    a.watch.(pending := Latest(if a.event.Some? then kept + [a.event.value] else kept, QUEUE))
  }

  /** The oldest pending event is offered; it leaves the queue if it is accepted. An
      event without a message is never accepted. */
  predicate Accepted(w: Watch, accepts: bool) {
    w.pending != [] && accepts && w.pending[0].status in VOCABULARY
  }

  function Offered(w: Watch, now: real, accepts: bool): Watch {
    if Accepted(w, accepts) then w.(pending := w.pending[1..], lastAccepted := Some(now)) else w
  }

  /** The stored state, and what has happened since the state was empty: every event,
      every offer to the notifier with that cycle's observation, and what it accepted. */
  datatype Trace = Trace(
    state: Watch, emitted: seq<Event>, offered: seq<(Event, Observation)>, delivered: seq<Event>)

  const START := Trace(EMPTY_WATCH, [], [], [])

  /** What one cycle meets: the query, the clock, and whether the notifier accepts. */
  datatype Beat = Beat(fetched: Fetched, now: real, accepts: bool)

  function Turn(t: Trace, b: Beat): Trace {
    var o := Observed(b.fetched, b.now);
    var event := Advance(t.state, o, b.now).event;
    var queued := Queued(t.state, b.fetched, b.now);
    Trace(Offered(queued, b.now, b.accepts),
          if event.Some? then t.emitted + [event.value] else t.emitted,
          if queued.pending == [] then t.offered else t.offered + [(queued.pending[0], o)],
          if Accepted(queued, b.accepts) then t.delivered + [queued.pending[0]] else t.delivered)
  }

  function Turns(t: Trace, beats: seq<Beat>): Trace
    decreases |beats|
  {
    if beats == [] then t else Turns(Turn(t, beats[0]), beats[1..])
  }

  lemma LatestGrows(all: seq<Event>, e: Event)
    ensures Latest(Latest(all, 50) + [e], 50) == Latest(all + [e], 50)
  {
  }

  /** The observer between two cycles is its two files. */
  class Observer {
    var state: Watch
    var history: seq<Event>
    ghost var emitted: seq<Event>
    ghost var offered: seq<(Event, Observation)>
    ghost var delivered: seq<Event>

    /** The event file holds the last fifty events. */
    ghost predicate Valid()
      reads this
    {
      history == Latest(emitted, 50)
    }

    ghost function Value(): Trace
      reads this
    {
      Trace(state, emitted, offered, delivered)
    }

    constructor ()
      ensures Valid() && Value() == START
    {
      state, history := EMPTY_WATCH, [];
      emitted, offered, delivered := [], [], [];
    }

    method Filter(pending: seq<Event>, o: Observation) returns (kept: seq<Event>)
      ensures kept == Kept(pending, o)
    {
      kept := [];
      var i := 0;
      while i < |pending|
        invariant 0 <= i <= |pending|
        invariant kept + Kept(pending[i..], o) == Kept(pending, o)
      {
        if Keeps(pending[i], o) { kept := kept + [pending[i]]; }
        i := i + 1;
      }
    }

    method Cycle(f: Fetched, now: real, accepts: bool)
      requires Valid()
      modifies this
      ensures Valid() && Value() == Turn(old(Value()), Beat(f, now, accepts))
    {
      hide Observed;
      var current := Observed(f, now);
      var a := Advance(state, current, now);
      var pending := Filter(state.pending, current);
      if a.event.Some? {
        pending := pending + [a.event.value];
        LatestGrows(emitted, a.event.value);
        history := Latest(history + [a.event.value], 50);
        emitted := emitted + [a.event.value];
      }
      state := a.watch.(pending := Latest(pending, QUEUE));
      if state.pending != [] {
        offered := offered + [(state.pending[0], current)];
        if accepts && state.pending[0].status in VOCABULARY {
          delivered := delivered + [state.pending[0]];
          state := state.(pending := state.pending[1..], lastAccepted := Some(now));
        }
      }
    }
  }
}
