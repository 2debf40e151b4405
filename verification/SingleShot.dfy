/** The one transition a battery gets from the old firmware to the new power policy:
    evidence, a durable reservation, and one published command. */
module SingleShot {
  import opened Numeric

  // ---- Evidence ----

  /** `isolated`: the row shows the old firmware in protection with no update pending. */
  datatype Row = Row(isolated: bool, voltage: Float, currentMa: Float, uptimeMs: Float, at: Float)

  predicate Readable(r: Row) {
    && r.isolated && r.voltage.Fin? && 12.0 <= r.voltage.r <= 16.0
    && r.currentMa.Fin? && r.currentMa.Abs().r <= 2.0
    && r.uptimeMs.Fin? && r.uptimeMs.r >= 0.0 && r.at.Fin?
  }

  predicate Follows(left: Row, right: Row)
    requires Readable(left) && Readable(right)
  {
    var gap := right.at.r - left.at.r;
    20.0 <= gap <= 35.0 && -3.0 <= gap - (right.uptimeMs.r - left.uptimeMs.r) / 1000.0 <= 3.0
  }

  function Highest(rows: seq<Row>): real
    requires rows != [] && forall i :: 0 <= i < |rows| ==> Readable(rows[i])
  {
    assert Readable(rows[|rows| - 1]);
    var last := rows[|rows| - 1].voltage.r;
    if |rows| == 1 then last else Max(Highest(rows[..|rows| - 1]), last)
  }

  function Lowest(rows: seq<Row>): real
    requires rows != [] && forall i :: 0 <= i < |rows| ==> Readable(rows[i])
  {
    assert Readable(rows[|rows| - 1]);
    var last := rows[|rows| - 1].voltage.r;
    if |rows| == 1 then last else -Max(-Lowest(rows[..|rows| - 1]), -last)
  }

  /** The old driver shows exactly this when it cannot read. */
  predicate Fabricated(r: Row) {
    r.voltage == Fin(12.2) && r.currentMa == Fin(0.0)
  }

  predicate Admits(all: seq<Row>, now: Float, legacy: bool) {
    legacy && |all| >= 4 && now.Fin? &&
    var rows := all[|all| - 4..];
    && (forall i :: 0 <= i < 4 ==> Readable(rows[i]) && !Fabricated(rows[i]))
    && 85.0 <= rows[3].at.r - rows[0].at.r <= 110.0 && 0.0 <= now.r - rows[3].at.r <= 3.0
    && (forall i :: 0 <= i < 3 ==> Follows(rows[i], rows[i + 1]))
    && Highest(rows) - Lowest(rows) <= 0.05 && rows[3].voltage.r >= rows[0].voltage.r - 0.02
  }

  /** Admitted evidence is one unbroken, recent stretch of one boot: uptime never falls, no
      row is more than two minutes old, and any two voltages are within 0.05 V. */
  lemma AdmittedEvidence(all: seq<Row>, now: Float, legacy: bool, i: nat, j: nat)
    requires Admits(all, now, legacy) && |all| - 4 <= i <= j < |all|
    ensures Readable(all[i]) && Readable(all[j])
    ensures i < j ==> all[i].uptimeMs.r < all[j].uptimeMs.r
    ensures 0.0 <= now.r - all[i].at.r <= 113.0
    ensures -0.05 <= all[i].voltage.r - all[j].voltage.r <= 0.05
  {
    var rows := all[|all| - 4..];
    var a, b := i - (|all| - 4), j - (|all| - 4);
    assert rows[a] == all[i] && rows[b] == all[j];
    Extremes(rows, a);
    Extremes(rows, b);
    assert Follows(rows[0], rows[1]) && Follows(rows[1], rows[2]) && Follows(rows[2], rows[3]);
  }

  lemma {:induction false} Extremes(rows: seq<Row>, k: nat)
    requires k < |rows| && forall i :: 0 <= i < |rows| ==> Readable(rows[i])
    ensures Lowest(rows) <= rows[k].voltage.r <= Highest(rows)
  {
    if k < |rows| - 1 { Extremes(rows[..|rows| - 1], k); }
  }

  function SteadyRow(voltage: real, uptimeMs: real, at: real): Row {
    Row(true, Fin(voltage), Fin(1.0), Fin(uptimeMs), Fin(at))
  }

  /** Four rows half a minute apart, of one boot. */
  function SteadyRows(voltage: real, uptimeMs: real, at: real): seq<Row> {
    [SteadyRow(voltage, uptimeMs, at), SteadyRow(voltage, uptimeMs + 30000.0, at + 30.0),
     SteadyRow(voltage, uptimeMs + 60000.0, at + 60.0), SteadyRow(voltage, uptimeMs + 90000.0, at + 90.0)]
  }

  /** Evidence that ends in such rows is admitted, whatever came before, as long as their
      voltage is in range and the last one is fresh. */
  lemma SteadyIsAdmitted(before: seq<Row>, voltage: real, uptimeMs: real, at: real, now: real)
    requires 12.0 <= voltage <= 16.0 && uptimeMs >= 0.0 && 0.0 <= now - (at + 90.0) <= 3.0
    ensures Admits(before + SteadyRows(voltage, uptimeMs, at), Fin(now), true)
  {
    hide Highest, Lowest;
    var all, rows := before + SteadyRows(voltage, uptimeMs, at), SteadyRows(voltage, uptimeMs, at);
    assert all[|all| - 4..] == rows;
    EqualVoltages(rows, voltage);
  }

  lemma {:induction false} EqualVoltages(rows: seq<Row>, voltage: real)
    requires rows != [] && forall i :: 0 <= i < |rows| ==> Readable(rows[i]) && rows[i].voltage == Fin(voltage)
    ensures Highest(rows) == Lowest(rows) == voltage
  {
    if |rows| > 1 { EqualVoltages(rows[..|rows| - 1], voltage); }
  }

  // ---- Reservation and publication, by any number of callers ----

  /** The directory entry of the reservation. Until the directory is synced it may be
      lost with the power. */
  datatype Entry = Absent | Cached | Durable

  datatype Stage = Checking | Created | Written | Synced | Sent | Gone

  datatype World = World(entry: Entry, fileSynced: bool, published: nat, callers: seq<Stage>)

  /** A caller's next system call; it stops there if its evidence or its call fails. */
  datatype Event =
    | Call
    | Reserve(caller: nat, admitted: bool)
    | SyncFile(caller: nat)
    | SyncDirectory(caller: nat)
    | Publish(caller: nat)
    | Stop(caller: nat)
    | PowerLoss(entryLost: bool)

  function Move(w: World, caller: nat, to: Stage): World
    requires caller < |w.callers|
  {
    w.(callers := w.callers[caller := to])
  }

  predicate At(w: World, caller: nat, stage: Stage) {
    caller < |w.callers| && w.callers[caller] == stage
  }

  function Happen(w: World, e: Event): World {
    match e
    case Call => w.(callers := w.callers + [Checking])
    case Reserve(c, admitted) =>
      if !At(w, c, Checking) then w
      else if !admitted || w.entry != Absent then Move(w, c, Gone)
      else Move(w.(entry := Cached, fileSynced := false), c, Created)
    case SyncFile(c) => if At(w, c, Created) then Move(w.(fileSynced := true), c, Written) else w
    case SyncDirectory(c) => if At(w, c, Written) then Move(w.(entry := Durable), c, Synced) else w
    case Publish(c) => if At(w, c, Synced) then Move(w.(published := w.published + 1), c, Sent) else w
    case Stop(c) => if c < |w.callers| then Move(w, c, Gone) else w
    case PowerLoss(entryLost) =>
      w.(callers := seq(|w.callers|, _ => Gone),
         entry := if w.entry == Cached && entryLost then Absent else w.entry)
  }

  function HappenAll(w: World, events: seq<Event>): World
    decreases |events|
  {
    if events == [] then w else HappenAll(Happen(w, events[0]), events[1..])
  }

  const UNTOUCHED := World(Absent, false, 0, [])

  predicate Reserved(s: Stage) {
    s == Created || s == Written || s == Synced || s == Sent
  }

  /** One caller at most is past its reservation, and what it may still do is bound to
      what is on the disk. */
  predicate Sound(w: World) {
    && (forall i, j :: 0 <= i < j < |w.callers| ==> !Reserved(w.callers[i]) || !Reserved(w.callers[j]))
    && (forall i :: 0 <= i < |w.callers| && Reserved(w.callers[i]) ==> w.entry != Absent)
    && (forall i :: 0 <= i < |w.callers| && w.callers[i] in {Synced, Sent} ==> w.entry == Durable && w.fileSynced)
    && (forall i :: 0 <= i < |w.callers| && w.callers[i] == Written ==> w.fileSynced)
    && w.published <= 1
    && (w.published == 1 ==> w.entry == Durable && w.fileSynced)
    && (w.published == 1 ==> forall i :: 0 <= i < |w.callers| ==> w.callers[i] in {Checking, Sent, Gone})
  }

  /** The caller past its reservation, if there is one, takes a step. */
  lemma HolderMoves(w: World, e: Event)
    requires Sound(w) && (e.SyncFile? || e.SyncDirectory? || e.Publish? || e.Stop?)
    ensures Sound(Happen(w, e))
  {
    var c := e.caller;
    if c < |w.callers| && Reserved(w.callers[c]) {
      assert forall i :: 0 <= i < |w.callers| && i != c ==> !Reserved(w.callers[i]);
    }
  }

  lemma ReserveKeeps(w: World, c: nat, admitted: bool)
    requires Sound(w)
    ensures Sound(Happen(w, Reserve(c, admitted)))
  {
    if w.entry == Absent { assert forall i :: 0 <= i < |w.callers| ==> !Reserved(w.callers[i]); }
  }

  lemma HappenKeeps(w: World, e: Event)
    requires Sound(w)
    ensures Sound(Happen(w, e))
    ensures w.entry == Durable ==> Happen(w, e).entry == Durable
  {
    match e
    case Call => assert forall i :: 0 <= i < |w.callers| ==> Happen(w, e).callers[i] == w.callers[i];
    case Reserve(c, admitted) => ReserveKeeps(w, c, admitted);
    case PowerLoss(_) =>
    case _ => HolderMoves(w, e);
  }

  lemma {:induction false} EventsKeep(w: World, events: seq<Event>)
    requires Sound(w)
    ensures Sound(HappenAll(w, events))
    ensures w.entry == Durable ==> HappenAll(w, events).entry == Durable
    decreases |events|
  {
    hide Sound, Happen;
    if events != [] {
      HappenKeeps(w, events[0]);
      EventsKeep(Happen(w, events[0]), events[1..]);
    }
  }

  /** However many callers, however interleaved, wherever they or the machine stop: the
      command is published at most once, and only under a reservation that no power loss
      can take away. */
  lemma PublishedAtMostOnce(events: seq<Event>)
    ensures
      var w := HappenAll(UNTOUCHED, events);
      w.published <= 1 && (w.published == 1 ==> w.entry == Durable && w.fileSynced)
  {
    EventsKeep(UNTOUCHED, events);
  }

  /** Once the reservation is durable nobody else ever gets past it. */
  lemma {:induction false} ReservationIsForever(w: World, events: seq<Event>)
    requires Sound(w) && w.entry == Durable && forall i :: 0 <= i < |w.callers| ==> w.callers[i] in {Checking, Sent, Gone}
    ensures HappenAll(w, events).published == w.published
    decreases |events|
  {
    if events != [] {
      HappenKeeps(w, events[0]);
      ReservationIsForever(Happen(w, events[0]), events[1..]);
    }
  }

  // ---- One caller, step by step ----

  /** How far a caller gets before a call of its fails or it is killed. */
  datatype Fate = Completes | StopsBeforeFileSync | StopsBeforeDirectorySync | StopsBeforePublish

  /** The events of one caller, from its call to its end. */
  function Events(c: nat, admitted: bool, fate: Fate): seq<Event> {
    [Call] + ([Reserve(c, admitted)] + After(c, fate))
  }

  function After(c: nat, fate: Fate): seq<Event> {
    match fate
    case StopsBeforeFileSync => [Stop(c)]
    case StopsBeforeDirectorySync => [SyncFile(c)] + [Stop(c)]
    case StopsBeforePublish => [SyncFile(c)] + ([SyncDirectory(c)] + [Stop(c)])
    case Completes => [SyncFile(c)] + ([SyncDirectory(c)] + [Publish(c)])
  }

  class Operator {
    var entry: Entry
    var fileSynced: bool
    var published: nat
    ghost var callers: seq<Stage>

    ghost function Value(): World
      reads this
    {
      World(entry, fileSynced, published, callers)
    }

    /** Reserve, sync, sync, publish; the reservation is never removed. */
    method TriggerOnce(rows: seq<Row>, now: Float, legacy: bool, candidateValid: bool, fate: Fate) returns (sent: bool)
      modifies this
      ensures
        var admitted := candidateValid && Admits(rows, now, legacy);
        && Value() == HappenAll(old(Value()), Events(|old(callers)|, admitted, fate))
        && sent == (admitted && old(entry) == Absent && fate == Completes)
        && published == old(published) + (if sent then 1 else 0)
        && (old(entry) != Absent ==> entry == old(entry))
    {
      hide Admits, HappenAll, Events;
      ghost var c := |callers|;
      ghost var was := Value();
      callers := callers + [Checking];
      sent := false;
      if !candidateValid || !Admits(rows, now, legacy) || entry != Absent {
        callers := callers[c := Gone];
        Turned(was, candidateValid && Admits(rows, now, legacy), fate);
        return;
      }
      entry, fileSynced := Cached, false;
      callers := callers[c := Created];
      Unfolds(was, fate);
      if fate == StopsBeforeFileSync { callers := callers[c := Gone]; return; }
      fileSynced := true;
      callers := callers[c := Written];
      if fate == StopsBeforeDirectorySync { callers := callers[c := Gone]; return; }
      entry := Durable;
      callers := callers[c := Synced];
      if fate == StopsBeforePublish { callers := callers[c := Gone]; return; }
      published := published + 1;
      callers := callers[c := Sent];
      sent := true;
    }
  }

  lemma Cons(w: World, e: Event, rest: seq<Event>)
    ensures HappenAll(w, [e] + rest) == HappenAll(Happen(w, e), rest)
    ensures HappenAll(w, [e]) == Happen(w, e)
  {
    assert ([e] + rest)[1..] == rest;
    assert HappenAll(Happen(w, e), []) == Happen(w, e);
  }

  /** A caller that is gone does nothing more. */
  lemma GoneStays(w: World, c: nat, fate: Fate)
    requires At(w, c, Gone)
    ensures HappenAll(w, After(c, fate)) == w
  {
    hide HappenAll;
    assert w.callers[c := Gone] == w.callers;
    Cons(w, Stop(c), []);
    Cons(w, Publish(c), []);
    Cons(w, SyncDirectory(c), [Stop(c)]);
    Cons(w, SyncDirectory(c), [Publish(c)]);
    Cons(w, SyncFile(c), [Stop(c)]);
    Cons(w, SyncFile(c), [SyncDirectory(c)] + [Stop(c)]);
    Cons(w, SyncFile(c), [SyncDirectory(c)] + [Publish(c)]);
  }

  lemma Turned(w: World, admitted: bool, fate: Fate)
    requires !admitted || w.entry != Absent
    ensures HappenAll(w, Events(|w.callers|, admitted, fate)) == w.(callers := w.callers + [Gone])
  {
    hide HappenAll, After;
    var c := |w.callers|;
    var called := Happen(w, Call);
    Cons(w, Call, [Reserve(c, admitted)] + After(c, fate));
    Cons(called, Reserve(c, admitted), After(c, fate));
    assert (w.callers + [Checking])[c := Gone] == w.callers + [Gone];
    GoneStays(Happen(called, Reserve(c, admitted)), c, fate);
  }

  /** A world with one more caller, at `stage`. */
  function With(w: World, stage: Stage, entry: Entry, synced: bool): World {
    w.(callers := w.callers + [stage], entry := entry, fileSynced := synced)
  }

  lemma Steps(w: World)
    requires w.entry == Absent
    ensures
      var c := |w.callers|;
      && Happen(Happen(w, Call), Reserve(c, true)) == With(w, Created, Cached, false)
      && Happen(With(w, Created, Cached, false), SyncFile(c)) == With(w, Written, Cached, true)
      && Happen(With(w, Written, Cached, true), SyncDirectory(c)) == With(w, Synced, Durable, true)
      && Happen(With(w, Synced, Durable, true), Publish(c)) == With(w, Sent, Durable, true).(published := w.published + 1)
      && forall s, e, f {:trigger With(w, s, e, f)} :: Happen(With(w, s, e, f), Stop(c)) == With(w, Gone, e, f)
  {
    assert forall s, t :: (w.callers + [s])[|w.callers| := t] == w.callers + [t];
  }

  /** What one caller leaves behind if nothing stands in its way. */
  function Attempted(w: World, fate: Fate): World {
    match fate
    case StopsBeforeFileSync => With(w, Gone, Cached, false)
    case StopsBeforeDirectorySync => With(w, Gone, Cached, true)
    case StopsBeforePublish => With(w, Gone, Durable, true)
    case Completes => With(w, Sent, Durable, true).(published := w.published + 1)
  }

  lemma Unfolds(w: World, fate: Fate)
    requires w.entry == Absent
    ensures HappenAll(w, Events(|w.callers|, true, fate)) == Attempted(w, fate)
  {
    hide HappenAll, Happen, With;
    var c := |w.callers|;
    var created, written := With(w, Created, Cached, false), With(w, Written, Cached, true);
    var synced := With(w, Synced, Durable, true);
    Steps(w);
    Cons(w, Call, [Reserve(c, true)] + After(c, fate));
    Cons(Happen(w, Call), Reserve(c, true), After(c, fate));
    match fate
    case StopsBeforeFileSync => Cons(created, Stop(c), []);
    case StopsBeforeDirectorySync =>
      Cons(created, SyncFile(c), [Stop(c)]);
      Cons(written, Stop(c), []);
    case StopsBeforePublish =>
      Cons(created, SyncFile(c), [SyncDirectory(c)] + [Stop(c)]);
      Cons(written, SyncDirectory(c), [Stop(c)]);
      Cons(synced, Stop(c), []);
    case Completes =>
      Cons(created, SyncFile(c), [SyncDirectory(c)] + [Publish(c)]);
      Cons(written, SyncDirectory(c), [Publish(c)]);
      Cons(synced, Publish(c), []);
  }
}
