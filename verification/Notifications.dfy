/** What the owner is told over any run of the observer that starts from nothing. */
module Notifications {
  import opened Numeric
  import opened PowerMonitor

  // ---- Subsequences ----

  predicate Sub(a: seq<Event>, b: seq<Event>) {
    a == [] || (b != [] && ((a[0] == b[0] && Sub(a[1..], b[1..])) || Sub(a, b[1..])))
  }

  lemma {:induction false} SubSelf(a: seq<Event>)
    ensures Sub(a, a)
  {
    if a != [] { SubSelf(a[1..]); }
  }

  lemma {:induction false} SubTrans(a: seq<Event>, b: seq<Event>, c: seq<Event>)
    requires Sub(a, b) && Sub(b, c)
    ensures Sub(a, c)
    decreases |b| + |c|
  {
    if a != [] {
      if Sub(b, c[1..]) {
        SubTrans(a, b, c[1..]);
      } else if a[0] == b[0] && Sub(a[1..], b[1..]) {
        SubTrans(a[1..], b[1..], c[1..]);
      } else {
        SubTrans(a, b[1..], c[1..]);
      }
    }
  }

  lemma {:induction false} SubAfter(d: seq<Event>, a: seq<Event>, b: seq<Event>)
    requires Sub(a, b)
    ensures Sub(d + a, d + b)
  {
    if d == [] {
      assert d + a == a && d + b == b;
    } else {
      SubAfter(d[1..], a, b);
      assert (d + a)[1..] == d[1..] + a && (d + b)[1..] == d[1..] + b;
    }
  }

  lemma {:induction false} SubSnoc(a: seq<Event>, b: seq<Event>, e: Event)
    requires Sub(a, b)
    ensures Sub(a + [e], b + [e])
  {
    if b == [] {
      SubSelf([e]);
      assert a + [e] == [e] && b + [e] == [e];
    } else {
      assert (b + [e])[1..] == b[1..] + [e];
      if a != [] && a[0] == b[0] && Sub(a[1..], b[1..]) {
        SubSnoc(a[1..], b[1..], e);
        assert (a + [e])[1..] == a[1..] + [e];
      } else if a == [] {
        SubSnoc([], b[1..], e);
      } else {
        SubSnoc(a, b[1..], e);
      }
    }
  }

  lemma {:induction false} SubLater(a: seq<Event>, n: nat)
    requires n <= |a|
    ensures Sub(a[n..], a)
  {
    if n == 0 {
      SubSelf(a);
      assert a[n..] == a;
    } else {
      SubLater(a[1..], n - 1);
      assert a[n..] == a[1..][n - 1..];
    }
  }

  lemma {:induction false} SubKept(pending: seq<Event>, o: Observation)
    ensures Sub(Kept(pending, o), pending)
  {
    if pending != [] {
      SubKept(pending[1..], o);
      if Keeps(pending[0], o) { assert Kept(pending, o)[1..] == Kept(pending[1..], o); }
    }
  }

  lemma SubMember(a: seq<Event>, b: seq<Event>, e: Event)
    requires Sub(a, b) && e in a
    ensures e in b
  {
  }

  // ---- One cycle ----

  function PendingBefore(t: Trace, b: Beat): seq<Event> {
    var o := Observed(b.fetched, b.now);
    var event := Advance(t.state, o, b.now).event;
    if event.Some? then Kept(t.state.pending, o) + [event.value] else Kept(t.state.pending, o)
  }

  /** Delivered and then pending events are among the emitted ones, in their order. */
  predicate InOrder(t: Trace) {
    Sub(t.delivered + t.state.pending, t.emitted) && |t.state.pending| <= QUEUE
  }

  lemma BeforeInOrder(t: Trace, b: Beat)
    requires InOrder(t)
    ensures Sub(t.delivered + PendingBefore(t, b), Turn(t, b).emitted)
  {
    hide Observed, Advance, Kept, Sub, Queued;
    var o := Observed(b.fetched, b.now);
    var event := Advance(t.state, o, b.now).event;
    var kept := Kept(t.state.pending, o);
    SubKept(t.state.pending, o);
    SubAfter(t.delivered, kept, t.state.pending);
    SubTrans(t.delivered + kept, t.delivered + t.state.pending, t.emitted);
    if event.Some? {
      SubSnoc(t.delivered + kept, t.emitted, event.value);
      assert t.delivered + (kept + [event.value]) == (t.delivered + kept) + [event.value];
    }
  }

  lemma QueuedIsLatest(t: Trace, b: Beat)
    ensures Queued(t.state, b.fetched, b.now).pending == Latest(PendingBefore(t, b), QUEUE)
  {
    hide Observed, Kept;
  }

  lemma TurnHandsOver(t: Trace, b: Beat)
    ensures
      var queued, t' := Queued(t.state, b.fetched, b.now).pending, Turn(t, b);
      t'.delivered + t'.state.pending == t.delivered + queued && |t'.state.pending| <= |queued|
  {
    hide Observed, Advance, Queued;
  }

  lemma TurnInOrder(t: Trace, b: Beat)
    requires InOrder(t)
    ensures InOrder(Turn(t, b))
  {
    hide Queued, PendingBefore, Sub, Turn;
    var before := PendingBefore(t, b);
    var queued := Queued(t.state, b.fetched, b.now).pending;
    BeforeInOrder(t, b);
    QueuedIsLatest(t, b);
    SubLater(before, |before| - |queued|);
    assert queued == before[|before| - |queued|..];
    SubAfter(t.delivered, queued, before);
    SubTrans(t.delivered + queued, t.delivered + before, Turn(t, b).emitted);
    TurnHandsOver(t, b);
  }

  /** Every event ever emitted says something the notifier knows, and none of them is
      one of the power modes the queue drops. */
  predicate Speakable(t: Trace) {
    && (forall e :: e in t.emitted ==> e.status in VOCABULARY && !PowerOnly(e.status))
    && !(t.state.active.Some? && t.state.active.value != Normal && PowerOnly(t.state.active.value))
  }

  lemma ToldIsSpeakable(o: Observation)
    requires o.status in VOCABULARY || PowerOnly(o.status)
    ensures Told(o) == Normal || (Told(o) in VOCABULARY && !PowerOnly(Told(o)))
  {
  }

  lemma JudgedIsSpeakable(f: Fetched, now: real)
    ensures Observed(f, now).status in VOCABULARY || PowerOnly(Observed(f, now).status)
  {
    hide ConsistentWarning, GoodReading, WarningFieldsPresent;
  }

  lemma TurnSpeakable(t: Trace, b: Beat)
    requires Speakable(t)
    ensures Speakable(Turn(t, b))
  {
    hide Observed, Told, Queued;
    JudgedIsSpeakable(b.fetched, b.now);
    ToldIsSpeakable(Observed(b.fetched, b.now));
    QueuedActive(t.state, b.fetched, b.now);
  }

  lemma QueuedActive(w: Watch, f: Fetched, now: real)
    ensures Queued(w, f, now).active == Advance(w, Observed(f, now), now).watch.active
  {
    hide Observed;
  }

  /** A low battery is offered only by a cycle that itself sees the warning. */
  predicate Honest(t: Trace) {
    forall i :: 0 <= i < |t.offered| && t.offered[i].0.status == LowBattery ==> t.offered[i].1.warningActive == Some(true)
  }

  lemma LowBatteryIsSeen(f: Fetched, now: real)
    ensures Told(Observed(f, now)) == LowBattery ==> Observed(f, now).warningActive == Some(true)
  {
  }

  lemma KeptIsCurrent(pending: seq<Event>, o: Observation, e: Event)
    requires e in Kept(pending, o)
    ensures Keeps(e, o)
  {
  }

  lemma TurnHonest(t: Trace, b: Beat)
    requires Honest(t)
    ensures Honest(Turn(t, b))
  {
    hide Observed, Kept, Keeps;
    var o := Observed(b.fetched, b.now);
    var queued := Queued(t.state, b.fetched, b.now).pending;
    LowBatteryIsSeen(b.fetched, b.now);
    if queued != [] && queued[0].status == LowBattery {
      assert queued[0] in PendingBefore(t, b);
      if queued[0] in Kept(t.state.pending, o) { KeptIsHonest(t.state.pending, o, queued[0]); }
    }
  }

  lemma KeptIsHonest(pending: seq<Event>, o: Observation, e: Event)
    requires e in Kept(pending, o) && e.status == LowBattery
    ensures o.warningActive == Some(true)
  {
    KeptIsCurrent(pending, o, e);
  }

  // ---- Any run ----

  lemma {:induction false} AnyRun(t: Trace, beats: seq<Beat>)
    requires InOrder(t) && Speakable(t) && Honest(t)
    ensures InOrder(Turns(t, beats)) && Speakable(Turns(t, beats)) && Honest(Turns(t, beats))
    decreases |beats|
  {
    hide InOrder, Speakable, Honest, Turn;
    if beats != [] {
      TurnInOrder(t, beats[0]);
      TurnSpeakable(t, beats[0]);
      TurnHonest(t, beats[0]);
      AnyRun(Turn(t, beats[0]), beats[1..]);
    }
  }

  /** From an empty state: what was delivered, then what is pending, is an ordered part of
      what was emitted; at most sixteen are pending; every event has a message; and a low
      battery is offered only while the warning is seen. */
  lemma OwnerIsToldInOrder(beats: seq<Beat>)
    ensures
      var t := Turns(START, beats);
      && Sub(t.delivered + t.state.pending, t.emitted) && |t.state.pending| <= 16
      && (forall e :: e in t.emitted ==> e.status in VOCABULARY)
      && (forall i :: 0 <= i < |t.offered| && t.offered[i].0.status == LowBattery ==>
            t.offered[i].1.warningActive == Some(true))
  {
    AnyRun(START, beats);
  }

  // ---- Events are the changes of what is observed ----

  function Observations(beats: seq<Beat>): seq<Status> {
    if beats == [] then [] else [Told(Observed(beats[0].fetched, beats[0].now))] + Observations(beats[1..])
  }

  /** A stream without its repetitions. */
  function Changes(before: Status, stream: seq<Status>): seq<Status>
    decreases |stream|
  {
    if stream == [] then []
    else if stream[0] == before then Changes(before, stream[1..])
    else [stream[0]] + Changes(stream[0], stream[1..])
  }

  function Said(s: Status): Status {
    if s == Normal then Recovered else s
  }

  function Statuses(events: seq<Event>): seq<Status> {
    if events == [] then [] else [events[0].status] + Statuses(events[1..])
  }

  function SaidAll(stream: seq<Status>): seq<Status> {
    if stream == [] then [] else [Said(stream[0])] + SaidAll(stream[1..])
  }

  lemma {:induction false} StatusesSnoc(events: seq<Event>, e: Event)
    ensures Statuses(events + [e]) == Statuses(events) + [e.status]
  {
    if events == [] {
      assert events + [e] == [e];
    } else {
      StatusesSnoc(events[1..], e);
      assert (events + [e])[1..] == events[1..] + [e];
    }
  }

  lemma TurnSays(t: Trace, b: Beat)
    ensures
      var t' := Turn(t, b);
      var told := Told(Observed(b.fetched, b.now));
      && Active(t'.state) == told
      && Statuses(t'.emitted) == Statuses(t.emitted) + (if told == Active(t.state) then [] else [Said(told)])
  {
    hide Observed, Told, Statuses, Kept;
    var event := Advance(t.state, Observed(b.fetched, b.now), b.now).event;
    if event.Some? { StatusesSnoc(t.emitted, event.value); }
  }

  lemma {:induction false} EventsFollow(t: Trace, beats: seq<Beat>)
    ensures Statuses(Turns(t, beats).emitted) ==
            Statuses(t.emitted) + SaidAll(Changes(Active(t.state), Observations(beats)))
    decreases |beats|
  {
    hide Turn, Observed, Told, Said, Statuses, Active;
    if beats == [] {
      assert Observations(beats) == [];
    } else {
      var n := Turn(t, beats[0]);
      var told := Told(Observed(beats[0].fetched, beats[0].now));
      TurnSays(t, beats[0]);
      EventsFollow(n, beats[1..]);
      var stream := Observations(beats);
      assert stream[0] == told && stream[1..] == Observations(beats[1..]);
      if told != Active(t.state) {
        var changes := Changes(Active(t.state), stream);
        assert changes[0] == told && changes[1..] == Changes(told, Observations(beats[1..]));
      }
    }
  }

  /** The event for a cycle that has something new to tell. */
  function News(b: Beat): Event {
    var o := Observed(b.fetched, b.now);
    Event(Said(Told(o)), o.severity, Truncated(b.now), o.voltage)
  }

  function AllNews(before: Status, beats: seq<Beat>): seq<Event>
    decreases |beats|
  {
    if beats == [] then []
    else
      var told := Told(Observed(beats[0].fetched, beats[0].now));
      (if told == before then [] else [News(beats[0])]) + AllNews(told, beats[1..])
  }

  lemma TurnIsNews(t: Trace, b: Beat)
    ensures
      var t', told := Turn(t, b), Told(Observed(b.fetched, b.now));
      Active(t'.state) == told && t'.emitted == t.emitted + if told == Active(t.state) then [] else [News(b)]
  {
    hide Observed, Told, Kept;
  }

  lemma {:induction false} NewsFollow(t: Trace, beats: seq<Beat>)
    ensures Turns(t, beats).emitted == t.emitted + AllNews(Active(t.state), beats)
    decreases |beats|
  {
    hide Turn, Observed, Told, Active, News;
    if beats != [] {
      TurnIsNews(t, beats[0]);
      NewsFollow(Turn(t, beats[0]), beats[1..]);
    }
  }

  /** From an empty state the events are exactly the changes of the observations,
      starting from normal: no change is missed and nothing is said twice. Each carries the
      time, the severity and the voltage of the observation it tells of. */
  lemma EventsAreChanges(beats: seq<Beat>)
    ensures Statuses(Turns(START, beats).emitted) == SaidAll(Changes(Normal, Observations(beats)))
    ensures Turns(START, beats).emitted == AllNews(Normal, beats)
  {
    NewsFollow(START, beats);
    EventsFollow(START, beats);
    assert Statuses(START.emitted) == [];
  }

  /** A stream of changes never repeats itself, and ends where the observations ended. */
  lemma {:induction false} ChangesAlternate(before: Status, stream: seq<Status>)
    ensures
      var c := Changes(before, stream);
      && (forall i :: 0 < i < |c| ==> c[i] != c[i - 1]) && (c != [] ==> c[0] != before)
      && (stream != [] ==> stream[|stream| - 1] == if c == [] then before else c[|c| - 1])
    decreases |stream|
  {
    if stream != [] {
      ChangesAlternate(if stream[0] == before then before else stream[0], stream[1..]);
      var rest := Changes(if stream[0] == before then before else stream[0], stream[1..]);
      assert stream[1..] != [] ==> stream[1..][|stream| - 2] == stream[|stream| - 1];
    }
  }

  // ---- Nothing is lost ----

  function Lasting(events: seq<Event>): seq<Event> {
    if events == [] then []
    else if events[0].status == LowBattery then Lasting(events[1..])
    else [events[0]] + Lasting(events[1..])
  }

  lemma {:induction false} LastingJoins(a: seq<Event>, b: seq<Event>)
    ensures Lasting(a + b) == Lasting(a) + Lasting(b)
  {
    if a == [] {
      assert a + b == b;
    } else {
      LastingJoins(a[1..], b);
      assert (a + b)[1..] == a[1..] + b;
    }
  }

  lemma {:induction false} LastingKept(pending: seq<Event>, o: Observation)
    requires forall e :: e in pending ==> !PowerOnly(e.status)
    ensures Lasting(Kept(pending, o)) == Lasting(pending)
  {
    if pending != [] {
      LastingKept(pending[1..], o);
      if Keeps(pending[0], o) { assert Kept(pending, o)[1..] == Kept(pending[1..], o); }
    }
  }

  /** The queue never has more than sixteen events to hold. */
  predicate NeverFull(t: Trace, beats: seq<Beat>)
    decreases |beats|
  {
    beats != [] ==> |PendingBefore(t, beats[0])| <= QUEUE && NeverFull(Turn(t, beats[0]), beats[1..])
  }

  predicate Complete(t: Trace) {
    Lasting(t.delivered + t.state.pending) == Lasting(t.emitted)
  }

  lemma TurnComplete(t: Trace, b: Beat)
    requires InOrder(t) && Speakable(t) && Complete(t) && |PendingBefore(t, b)| <= QUEUE
    ensures Complete(Turn(t, b))
  {
    hide Observed, Advance, Kept, Sub, Lasting, PowerOnly;
    var o := Observed(b.fetched, b.now);
    var event := Advance(t.state, o, b.now).event;
    forall e | e in t.state.pending ensures !PowerOnly(e.status) {
      assert e in t.delivered + t.state.pending;
      SubMember(t.delivered + t.state.pending, t.emitted, e);
    }
    LastingKept(t.state.pending, o);
    LastingJoins(t.delivered, t.state.pending);
    LastingJoins(t.delivered, Kept(t.state.pending, o));
    QueuedIsLatest(t, b);
    TurnHandsOver(t, b);
    if event.Some? {
      var kept := Kept(t.state.pending, o);
      LastingJoins(t.delivered + kept, [event.value]);
      LastingJoins(t.emitted, [event.value]);
      assert t.delivered + PendingBefore(t, b) == (t.delivered + kept) + [event.value];
    }
  }

  lemma {:induction false} CompleteRun(t: Trace, beats: seq<Beat>)
    requires InOrder(t) && Speakable(t) && Complete(t) && NeverFull(t, beats)
    ensures Complete(Turns(t, beats))
    decreases |beats|
  {
    hide InOrder, Speakable, Complete, Turn, PendingBefore;
    if beats != [] {
      TurnInOrder(t, beats[0]);
      TurnSpeakable(t, beats[0]);
      TurnComplete(t, beats[0]);
      CompleteRun(Turn(t, beats[0]), beats[1..]);
    }
  }

  /** While the queue has room, every event but a low battery that is over is delivered
      or still pending, in order and once. */
  lemma NothingIsLost(beats: seq<Beat>)
    requires NeverFull(START, beats)
    ensures
      var t := Turns(START, beats);
      Lasting(t.delivered + t.state.pending) == Lasting(t.emitted)
  {
    CompleteRun(START, beats);
  }

  // ---- What is emitted gets told ----

  /** The observations of these cycles do not end it: a low battery lasts as long as the
      warning is seen. */
  predicate StandsThrough(e: Event, beats: seq<Beat>) {
    e.status == LowBattery ==>
      forall b :: b in beats ==> Observed(b.fetched, b.now).warningActive == Some(true)
  }

  /** In how many of the cycles the notifier is ready to accept. */
  function Acceptances(beats: seq<Beat>): nat {
    if beats == [] then 0 else Acceptances(beats[1..]) + if beats[0].accepts then 1 else 0
  }

  /** What a cycle emits is told in that cycle or is the last in the queue after it. */
  lemma EmittedIsQueued(t: Trace, b: Beat)
    requires Turn(t, b).emitted != t.emitted
    ensures
      var t' := Turn(t, b);
      && |t'.emitted| == |t.emitted| + 1
      && (t'.delivered + t'.state.pending)[|t'.delivered + t'.state.pending| - 1] == t'.emitted[|t.emitted|]
  {
    hide Observed, Kept, Queued;
    QueuedIsLatest(t, b);
    TurnHandsOver(t, b);
    var queued := Queued(t.state, b.fetched, b.now).pending;
    assert queued != [] && queued[|queued| - 1] == Turn(t, b).emitted[|t.emitted|];
  }

  lemma {:induction false} KeptAt(pending: seq<Event>, o: Observation, i: nat)
    requires i < |pending| && Keeps(pending[i], o)
    ensures
      var j := |Kept(pending[..i], o)|;
      j <= i && j < |Kept(pending, o)| && Kept(pending, o)[j] == pending[i]
  {
    if i > 0 {
      KeptAt(pending[1..], o, i - 1);
      assert pending[..i][1..] == pending[1..][..i - 1];
    }
  }

  predicate Waiting(t: Trace) {
    InOrder(t) && Speakable(t)
  }

  /** In an accepting cycle an event that stands moves up or is told, in another it stays. */
  lemma TurnMovesUp(t: Trace, b: Beat, i: nat) returns (j: nat)
    requires Waiting(t) && i < |t.state.pending| && |PendingBefore(t, b)| <= QUEUE
    requires StandsThrough(t.state.pending[i], [b])
    ensures
      var e, t' := t.state.pending[i], Turn(t, b);
      e in t'.delivered || (j < |t'.state.pending| && t'.state.pending[j] == e && if b.accepts then j < i else j <= i)
  {
    hide Observed, Advance, Kept, Queued, Sub, Keeps, PowerOnly;
    var o, e := Observed(b.fetched, b.now), t.state.pending[i];
    j := |Kept(t.state.pending[..i], o)|;
    SpeakablePending(t, e);
    Stands(e, b);
    KeptAt(t.state.pending, o, i);
    QueuedIsLatest(t, b);
    var queued := Queued(t.state, b.fetched, b.now).pending;
    assert queued[j] == e;
    if b.accepts {
      HeadIsAccepted(t, b);
      if j > 0 { j := j - 1; }
    }
  }

  lemma SpeakablePending(t: Trace, e: Event)
    requires Waiting(t) && e in t.state.pending
    ensures e.status in VOCABULARY && !PowerOnly(e.status)
  {
    hide Sub, PowerOnly;
    assert e in t.delivered + t.state.pending;
    SubMember(t.delivered + t.state.pending, t.emitted, e);
  }

  lemma Stands(e: Event, b: Beat)
    requires !PowerOnly(e.status) && StandsThrough(e, [b])
    ensures Keeps(e, Observed(b.fetched, b.now))
  {
    hide Observed;
    assert b in [b];
  }

  lemma HeadIsAccepted(t: Trace, b: Beat)
    requires Waiting(t) && b.accepts && Queued(t.state, b.fetched, b.now).pending != []
    ensures
      var queued := Queued(t.state, b.fetched, b.now);
      && Accepted(queued, b.accepts)
      && Turn(t, b).state.pending == queued.pending[1..] && queued.pending[0] in Turn(t, b).delivered
  {
    hide Observed, Advance, Queued, Sub;
    BeforeInOrder(t, b);
    QueuedIsLatest(t, b);
    TurnSpeakable(t, b);
    var head := Queued(t.state, b.fetched, b.now).pending[0];
    assert head in t.delivered + PendingBefore(t, b);
    SubMember(t.delivered + PendingBefore(t, b), Turn(t, b).emitted, head);
  }

  lemma ToldStays(t: Trace, b: Beat, e: Event)
    requires e in t.delivered
    ensures e in Turn(t, b).delivered
  {
    hide Observed, Advance, Queued;
  }

  lemma {:induction false} ToldStaysThrough(t: Trace, beats: seq<Beat>, e: Event)
    requires e in t.delivered
    ensures e in Turns(t, beats).delivered
    decreases |beats|
  {
    hide Turn;
    if beats != [] {
      ToldStays(t, beats[0], e);
      ToldStaysThrough(Turn(t, beats[0]), beats[1..], e);
    }
  }

  lemma {:induction false} WaitingIsTold(t: Trace, i: nat, beats: seq<Beat>)
    requires Waiting(t) && i < |t.state.pending| && NeverFull(t, beats)
    requires StandsThrough(t.state.pending[i], beats) && Acceptances(beats) > i
    ensures t.state.pending[i] in Turns(t, beats).delivered
    decreases |beats|
  {
    hide InOrder, Speakable, Turn, PendingBefore, Observed;
    var e, b := t.state.pending[i], beats[0];
    assert b in beats;
    TurnInOrder(t, b);
    TurnSpeakable(t, b);
    var j := TurnMovesUp(t, b, i);
    if e in Turn(t, b).delivered {
      ToldStaysThrough(Turn(t, b), beats[1..], e);
    } else {
      WaitingIsTold(Turn(t, b), j, beats[1..]);
    }
  }

  /** In any run, an event in the queue is told by the time the notifier has accepted once
      for it and once for each event before it, as long as the queue has room, and for a low
      battery as long as the warning is seen. */
  lemma OwnerIsTold(beats: seq<Beat>, more: seq<Beat>, i: nat)
    requires
      var t := Turns(START, beats);
      && i < |t.state.pending| && NeverFull(t, more)
      && StandsThrough(t.state.pending[i], more) && Acceptances(more) > i
    ensures
      var t := Turns(START, beats);
      t.state.pending[i] in Turns(t, more).delivered
  {
    hide InOrder, Speakable, Turns, NeverFull;
    FromNothing(beats);
    WaitingIsTold(Turns(START, beats), i, more);
  }

  lemma FromNothing(beats: seq<Beat>)
    ensures Waiting(Turns(START, beats))
  {
    AnyRun(START, beats);
  }

  // ---- What the stored state says ----

  function ToldAt(b: Beat): Status {
    Told(Observed(b.fetched, b.now))
  }

  /** From cycle `k` on always the same was to be told, and the clock stayed past it. */
  predicate Streak(beats: seq<Beat>, k: nat) {
    k < |beats| && forall i :: k <= i < |beats| ==> ToldAt(beats[i]) == ToldAt(beats[k]) && beats[i].now >= beats[k].now
  }

  /** Before that it was something else, or the clock was later. */
  predicate Begins(beats: seq<Beat>, k: nat)
    requires k < |beats|
  {
    k == 0 || ToldAt(beats[k - 1]) != ToldAt(beats[k]) || exists m :: 0 <= m < k && beats[k].now < beats[m].now
  }

  predicate Records(w: Watch, b: Beat) {
    var o := Observed(b.fetched, b.now);
    w.current == Some(o) && w.observedAt == Some(b.now) && w.candidate == Some(Told(o)) && Active(w) == Told(o)
  }

  predicate SinceThen(w: Watch, beats: seq<Beat>, k: nat) {
    Streak(beats, k) && Begins(beats, k) && w.candidateSince == Some(beats[k].now)
  }

  /** What the stored state says after these cycles. */
  predicate Recalls(t: Trace, beats: seq<Beat>) {
    if beats == [] then t.state.candidate.None?
    else Records(t.state, beats[|beats| - 1]) && exists k :: 0 <= k < |beats| && SinceThen(t.state, beats, k)
  }

  lemma TurnRecords(t: Trace, b: Beat)
    ensures
      var w, w' := t.state, Turn(t, b).state;
      && Records(w', b)
      && (w.candidate.None? || w.candidateSince.Some? ==>
            w'.candidateSince ==
            if w.candidate == Some(ToldAt(b)) && w.candidateSince.value <= b.now then w.candidateSince else Some(b.now))
  {
    hide Observed, Told, Kept;
  }

  lemma TurnRecalls(t: Trace, past: seq<Beat>, b: Beat)
    requires Recalls(t, past)
    ensures Recalls(Turn(t, b), past + [b])
  {
    hide Turn, Observed, Told;
    TurnRecords(t, b);
    var w', beats := Turn(t, b).state, past + [b];
    if past == [] {
      assert SinceThen(w', beats, 0);
    } else {
      var k :| 0 <= k < |past| && SinceThen(t.state, past, k);
      if ToldAt(past[|past| - 1]) == ToldAt(b) && past[k].now <= b.now {
        assert beats[..|past|] == past && beats[|past|] == b;
        assert Streak(beats, k) && Begins(beats, k) by { assert ToldAt(past[|past| - 1]) == ToldAt(past[k]); }
        assert SinceThen(w', beats, k);
      } else {
        assert beats[k] == past[k] && beats[|past| - 1] == past[|past| - 1];
        assert SinceThen(w', beats, |past|);
      }
    }
  }

  lemma {:induction false} RunRecalls(t: Trace, past: seq<Beat>, beats: seq<Beat>)
    requires Recalls(t, past)
    ensures Recalls(Turns(t, beats), past + beats)
    decreases |beats|
  {
    hide Recalls, Turn;
    if beats == [] {
      assert past + beats == past;
    } else {
      TurnRecalls(t, past, beats[0]);
      RunRecalls(Turn(t, beats[0]), past + [beats[0]], beats[1..]);
      assert past + [beats[0]] + beats[1..] == past + beats;
    }
  }

  /** In any run the stored state holds the last observation, what is to be told of it, and
      the time since when that has been the same without the clock going back. */
  lemma StateRecalls(beats: seq<Beat>)
    ensures Recalls(Turns(START, beats), beats)
  {
    RunRecalls(START, [], beats);
    assert [] + beats == beats;
  }
}
