/** Owner requests: the shape and freshness check, the gate that admits each request
    at most once, and the watermark that makes this last over restarts. */
module OwnerGate {
  import opened Numeric

  type u64 = x: nat | x < 0x1_0000_0000_0000_0000 witness 0

  const EARLIEST: u64 := 1700000000
  const LONGEST_S: u64 := 120
  const PER_BOOT: nat := 8

  // ---- Shape and freshness ----

  predicate HexDigit(c: char) {
    '0' <= c <= '9' || 'a' <= c <= 'f'
  }

  predicate Proper(id: Option<string>) {
    id.Some? && |id.value| == 32 && forall i :: 0 <= i < 32 ==> HexDigit(id.value[i])
  }

  predicate Timely(expires: u64, now: u64) {
    EARLIEST <= now < expires <= now + LONGEST_S
  }

  method ValidateRequest(id: Option<string>, expires: u64, now: u64) returns (ok: bool, ttl: u32)
    ensures ok <==> Proper(id) && Timely(expires, now)
    ensures ttl == if ok then (expires - now) * 1000 else 0
    ensures ok ==> 0 < ttl <= 120000
  {
    ttl := 0;
    if id.None? || |id.value| != 32 || now < EARLIEST || expires <= now || expires - now > LONGEST_S {
      return false, 0;
    }
    var i := 0;
    while i < 32
      invariant 0 <= i <= 32
      invariant forall j :: 0 <= j < i ==> HexDigit(id.value[j])
    {
      if !(('0' <= id.value[i] && id.value[i] <= '9') || ('a' <= id.value[i] && id.value[i] <= 'f')) {
        return false, 0;
      }
      i := i + 1;
    }
    ok, ttl := true, (expires - now) * 1000;
  }

  // ---- The gate ----

  datatype Request = Request(id: Option<string>, expires: u64, retained: bool, duplicate: bool)

  datatype Gate = Gate(watermark: u64, accepted: seq<string>)

  const CLOSED_GATE := Gate(0, [])

  predicate Admissible(g: Gate, r: Request, now: u64) {
    && !r.retained && !r.duplicate && r.expires > g.watermark && |g.accepted| < PER_BOOT
    && Proper(r.id) && Timely(r.expires, now) && r.id.value !in g.accepted
  }

  function Accept(g: Gate, r: Request, now: u64): Gate {
    if Admissible(g, r, now) then Gate(r.expires, g.accepted + [r.id.value]) else g
  }

  function Raise(g: Gate, value: u64): Gate {
    g.(watermark := if value > g.watermark then value else g.watermark)
  }

  /** A write that fails may or may not have reached the store. */
  datatype Save = Saved | Lost | AppliedButFailed

  datatype Outcome = Outcome(gate: Gate, stored: u64, ok: bool)

  /** Load, raise, accept, save; a request counts only once its expiry is on record. */
  function AcceptStored(g: Gate, stored: u64, r: Request, now: u64, loads: bool, save: Save): Outcome {
    if !loads then Outcome(g, stored, false)
    else
      var g := Raise(g, stored);
      if !Admissible(g, r, now) then Outcome(g, stored, false)
      else
        var g := Accept(g, r, now);
        Outcome(g, if save == Lost then stored else g.watermark, save == Saved)
  }

  class Store {
    var value: u64

    method Load(works: bool) returns (ok: bool, v: u64)
      ensures ok == works && (ok ==> v == value)
    {
      ok, v := works, if works then value else 0;
    }

    method Write(v: u64, save: Save) returns (ok: bool)
      modifies this
      ensures value == (if save == Lost then old(value) else v) && ok == save.Saved?
    {
      if save != Lost { value := v; }
      ok := save == Saved;
    }
  }

  class OwnerRequestGate {
    var watermark: u64
    const accepted: array<string>
    var count: nat

    ghost predicate Valid()
      reads this
    {
      accepted.Length == PER_BOOT && count <= PER_BOOT
    }

    function Value(): Gate
      requires Valid()
      reads this, accepted
    {
      Gate(watermark, accepted[..count])
    }

    constructor ()
      ensures Valid() && fresh(accepted) && Value() == CLOSED_GATE
    {
      watermark, count := 0, 0;
      accepted := new string[PER_BOOT](_ => "");
    }

    method RestoreWatermark(value: u64)
      requires Valid()
      modifies this`watermark
      ensures Valid() && Value() == Raise(old(Value()), value)
    {
      if value > watermark { watermark := value; }
    }

    method AcceptRequest(r: Request, now: u64) returns (ok: bool, ttl: u32)
      requires Valid()
      modifies this, accepted
      ensures Valid() && Value() == Accept(old(Value()), r, now)
      ensures ok == Admissible(old(Value()), r, now)
      ensures ttl == if ok then (r.expires - now) * 1000 else 0
    {
      ok, ttl := false, 0;
      if r.retained || r.duplicate || r.expires <= watermark || count >= PER_BOOT { return; }
      var proper, candidate := ValidateRequest(r.id, r.expires, now);
      if !proper { return; }
      var i := 0;
      while i < count
        invariant 0 <= i <= count
        invariant r.id.value !in accepted[..i]
      {
        if accepted[i] == r.id.value {
          assert accepted[..count][i] == r.id.value;
          return;
        }
        assert accepted[..i + 1] == accepted[..i] + [accepted[i]];
        i := i + 1;
      }
      accepted[count] := r.id.value;
      count := count + 1;
      assert accepted[..count] == old(accepted[..count]) + [r.id.value];
      watermark := r.expires;
      ok, ttl := true, candidate;
    }

    method AcceptStoredRequest(store: Store, r: Request, now: u64, loads: bool, save: Save) returns (ok: bool, ttl: u32)
      requires Valid()
      modifies this, accepted, store
      ensures Valid()
      ensures Outcome(Value(), store.value, ok) == AcceptStored(old(Value()), old(store.value), r, now, loads, save)
      ensures ttl == if ok then (r.expires - now) * 1000 else 0
    {
      ok, ttl := false, 0;
      var loaded, previous := store.Load(loads);
      if !loaded { return; }
      RestoreWatermark(previous);
      var accepted, candidate := AcceptRequest(r, now);
      if !accepted { return; }
      var written := store.Write(watermark, save);
      if !written { return; }
      ok, ttl := true, candidate;
    }
  }

  // ---- Admission of a command ----

  /** What one delivery of an owner command meets. `later` is the second look at the clock. */
  datatype Delivery = Delivery(
    id: Option<string>, expires: Option<u64>, retained: bool, duplicate: bool,
    now: u64, later: u64, opens: bool, loads: bool, save: Save) {

    predicate Readable() {
      id.Some? && expires.Some? && opens
    }

    function Asked(): Request
      requires expires.Some?
    {
      Request(id, expires.value, retained, duplicate)
    }
  }

  datatype Admission = Admission(gate: Gate, stored: u64, ttl: Option<u32>)

  /** What is left of the time is measured again, on 32 bits. */
  function Admit(g: Gate, stored: u64, d: Delivery): Admission {
    if !d.Readable() then Admission(g, stored, None)
    else
      var o := AcceptStored(g, stored, d.Asked(), d.now, d.loads, d.save);
      if !o.ok || d.expires.value <= d.later then Admission(o.gate, o.stored, None)
      else Admission(o.gate, o.stored, Some(Wrap((d.expires.value - d.later) * 1000)))
  }

  /** The part of the connection manager that admits owner commands. */
  class CommandDesk {
    const gate: OwnerRequestGate
    const store: Store

    ghost predicate Valid()
      reads this, gate
    {
      gate.Valid()
    }

    /** A boot: a new gate over the store that was there before. */
    constructor (store: Store)
      ensures Valid() && this.store == store && fresh(gate) && fresh(gate.accepted) && gate.Value() == CLOSED_GATE
    {
      this.store := store;
      gate := new OwnerRequestGate();
    }

    method AdmitOwnerCommand(d: Delivery) returns (ok: bool, ttl: u32)
      requires Valid()
      modifies gate, gate.accepted, store
      ensures Valid()
      ensures
        Admission(gate.Value(), store.value, if ok then Some(ttl) else None) ==
        Admit(old(gate.Value()), old(store.value), d)
      ensures !ok ==> ttl == 0
    {
      ok, ttl := false, 0;
      if d.id.None? || d.expires.None? { return; }
      if !d.opens { return; }
      var stored, _ := gate.AcceptStoredRequest(store, d.Asked(), d.now, d.loads, d.save);
      if !stored || d.expires.value <= d.later { return; }
      ok, ttl := true, Wrap((d.expires.value - d.later) * 1000);
    }
  }

  // ---- Any sequence of deliveries, failures and restarts ----

  datatype Step = Deliver(d: Delivery) | Restart

  datatype Grant = Grant(id: string, expires: u64, ttl: u32)

  /** `grants` lists what was ever granted; the last `fromThisBoot` of it since the last restart. */
  datatype World = World(gate: Gate, stored: u64, grants: seq<Grant>, fromThisBoot: nat)

  function Do(w: World, step: Step): World {
    match step
    case Restart => w.(gate := CLOSED_GATE, fromThisBoot := 0)
    case Deliver(d) =>
      var a := Admit(w.gate, w.stored, d);
      if a.ttl.None? then w.(gate := a.gate, stored := a.stored)
      else World(a.gate, a.stored, w.grants + [Grant(d.id.value, d.expires.value, a.ttl.value)], w.fromThisBoot + 1)
  }

  function DoAll(w: World, steps: seq<Step>): World
    decreases |steps|
  {
    if steps == [] then w else DoAll(Do(w, steps[0]), steps[1..])
  }

  function Installed(stored: u64): World {
    World(CLOSED_GATE, stored, [], 0)
  }

  predicate Rising(grants: seq<Grant>) {
    forall i, j :: 0 <= i < j < |grants| ==> grants[i].expires < grants[j].expires
  }

  /** The grants of this boot are among the requests the gate has accepted in it. */
  predicate Sound(w: World) {
    && Rising(w.grants)
    && (forall i :: 0 <= i < |w.grants| ==> w.grants[i].expires <= w.stored)
    && w.fromThisBoot <= |w.gate.accepted| <= PER_BOOT && w.fromThisBoot <= |w.grants|
    && (forall i :: |w.grants| - w.fromThisBoot <= i < |w.grants| ==> w.grants[i].id in w.gate.accepted)
    && (forall i, j :: |w.grants| - w.fromThisBoot <= i < j < |w.grants| ==> w.grants[i].id != w.grants[j].id)
  }

  lemma DoKeeps(w: World, step: Step)
    requires Sound(w)
    ensures Sound(Do(w, step)) && w.stored <= Do(w, step).stored
    ensures w.grants <= Do(w, step).grants
  {
    hide Proper, Timely;
  }

  /** Granted expiries rise strictly, over restarts and failed or half-failed writes; the
      store never goes back; one boot grants at most eight requests, with different ids. */
  lemma {:induction false} AtMostOnce(w: World, steps: seq<Step>)
    requires Sound(w)
    ensures
      var w' := DoAll(w, steps);
      Sound(w') && w.stored <= w'.stored && w.grants <= w'.grants
    decreases |steps|
  {
    hide Sound, Do;
    if steps != [] {
      DoKeeps(w, steps[0]);
      AtMostOnce(Do(w, steps[0]), steps[1..]);
    }
  }

  /** The same from an empty history, spelled out. */
  lemma AnyDeliveries(stored: u64, steps: seq<Step>)
    ensures
      var w := DoAll(Installed(stored), steps);
      && (forall i, j :: 0 <= i < j < |w.grants| ==> w.grants[i].expires < w.grants[j].expires)
      && (forall i :: 0 <= i < |w.grants| ==> w.grants[i].expires <= w.stored)
      && stored <= w.stored && w.fromThisBoot <= 8
  {
    AtMostOnce(Installed(stored), steps);
  }

  predicate ShortGrants(w: World) {
    forall i :: 0 <= i < |w.grants| ==> 0 < w.grants[i].ttl <= 120000
  }

  /** If the clock never steps back between the two looks, every grant is for at most two minutes. */
  lemma {:induction false} GrantsAreShort(w: World, steps: seq<Step>)
    requires ShortGrants(w)
    requires forall i :: 0 <= i < |steps| && steps[i].Deliver? ==> steps[i].d.now <= steps[i].d.later
    ensures ShortGrants(DoAll(w, steps))
    decreases |steps|
  {
    hide Admit;
    if steps != [] {
      if steps[0].Deliver? && Admit(w.gate, w.stored, steps[0].d).ttl.Some? {
        GrantedTime(w.gate, w.stored, steps[0].d);
      }
      GrantsAreShort(Do(w, steps[0]), steps[1..]);
    }
  }

  /** A message that was granted once is never granted again, however often it is
      delivered and whatever happens in between. */
  lemma NeverAgain(stored: u64, early: seq<Step>, d: Delivery, between: seq<Step>, d': Delivery)
    requires d'.id == d.id && d'.expires == d.expires
    requires
      var w := DoAll(Installed(stored), early);
      Admit(w.gate, w.stored, d).ttl.Some?
    ensures
      var w := DoAll(Do(DoAll(Installed(stored), early), Deliver(d)), between);
      Admit(w.gate, w.stored, d').ttl.None?
  {
    hide Proper, Timely;
    AtMostOnce(Installed(stored), early);
    var w := DoAll(Installed(stored), early);
    DoKeeps(w, Deliver(d));
    AtMostOnce(Do(w, Deliver(d)), between);
  }

  // ---- A new request gets through ----

  /** No delivery so far had this id since the last restart, or an expiry as late. */
  predicate NewTo(w: World, d: Delivery) {
    && d.expires.Some? && d.id.Some?
    && d.expires.value > w.gate.watermark && d.expires.value > w.stored && d.id.value !in w.gate.accepted
  }

  predicate Later(steps: seq<Step>, d: Delivery) {
    d.expires.Some? && d.id.Some? &&
    forall i :: 0 <= i < |steps| && steps[i].Deliver? ==>
      && (steps[i].d.expires.Some? ==> steps[i].d.expires.value < d.expires.value)
      && steps[i].d.id != d.id
  }

  lemma StaysNew(w: World, step: Step, d: Delivery)
    requires NewTo(w, d) && Later([step], d)
    ensures NewTo(Do(w, step), d)
  {
    hide Proper, Timely;
    assert [step][0] == step;
  }

  lemma {:induction false} RunStaysNew(w: World, steps: seq<Step>, d: Delivery)
    requires NewTo(w, d) && Later(steps, d)
    ensures NewTo(DoAll(w, steps), d)
    decreases |steps|
  {
    hide NewTo, Do;
    if steps != [] {
      assert steps[1..] == steps[1..] && forall i :: 0 <= i < |steps[1..]| ==> steps[1..][i] == steps[i + 1];
      StaysNew(w, steps[0], d);
      RunStaysNew(Do(w, steps[0]), steps[1..], d);
    }
  }

  /** A request later than every one before, with an id of its own, is granted exactly
      when it is well formed, in time, first-hand, and the store works, unless eight
      have been accepted since the restart. Earlier failures do not matter. */
  lemma NewRequestGranted(stored: u64, steps: seq<Step>, d: Delivery)
    requires Later(steps, d) && d.expires.value > stored
    ensures
      var w := DoAll(Installed(stored), steps);
      Admit(w.gate, w.stored, d).ttl.Some? <==>
        && !d.retained && !d.duplicate && Proper(d.id) && Timely(d.expires.value, d.now) && d.later < d.expires.value
        && d.opens && d.loads && d.save == Saved && |w.gate.accepted| < PER_BOOT
  {
    hide Proper, Timely;
    RunStaysNew(Installed(stored), steps, d);
  }

  // ---- The granted time ----

  /** The time granted is what is really left, and within two minutes, exactly when the
      second look at the clock is not more than two minutes before the expiry. */
  lemma GrantedTime(g: Gate, stored: u64, d: Delivery)
    requires Admit(g, stored, d).ttl.Some?
    ensures
      var ttl := Admit(g, stored, d).ttl.value;
      (0 < ttl <= 120000 && ttl == (d.expires.value - d.later) * 1000) <==> d.expires.value <= d.later + LONGEST_S
    ensures d.now <= d.later ==> 0 < Admit(g, stored, d).ttl.value <= 120000
  {
    hide Proper;
  }

  /** A clock set back by one second between the two looks grants more than two minutes. */
  lemma ClockSetBack()
    ensures
      var id := seq(32, _ => '0');
      var d := Delivery(Some(id), Some(1800000120), false, false, 1800000000, 1799999999, true, true, Saved);
      Admit(CLOSED_GATE, 0, d).ttl == Some(121000)
  {
    assert Proper(Some(seq(32, _ => '0')));
  }
}
