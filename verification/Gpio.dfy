/** The relay pins, the non-volatile store and the power sensor as the controller
    drives them: a log of everything it does to them, in real time, and a plain
    interpreter of such logs. Nothing here knows about the controller. */
module Gpio {
  import opened Numeric

  const CONTACT_MS: nat := 100

  datatype Mode = Input | Output

  datatype Direction = DirA | DirB

  /** Why the main relay is energised. The hardware does not see this; it names the
      branch of the controller that decided it. */
  datatype Purpose = Motion | Protective | ChargingClose

  datatype Reading = Reading(voltage: Float, current: Float, ok: bool)

  /** The two flags that survive a restart. Either of them boots into protection. */
  datatype Nvs = Nvs(hold: bool, lidOpen: bool) {
    predicate Durable() {
      hold || lidOpen
    }
  }

  datatype Event =
    | MainOff                               // main relay pin to INPUT
    | MainOn(why: Purpose)                  // main relay pin to OUTPUT, driven LOW
    | DirMode(dir: Direction, mode: Mode)
    | DirWrite(dir: Direction, high: bool)  // the relays are active-low
    | ReadPower(reading: Reading, limit: Float)
    | SaveHold(held: bool)
    | SaveLid(open: bool)
    | LatchReleased                         // the battery policy gave the latch free
    | LatchRestored                         // the controller had the policy hold it (again)

  /** What a log leaves behind. `strokes` counts the protective strokes since the
      latch was last released, and a latch restored at boot counts as having had its
      stroke; `closes` counts the closing strokes under protection since boot. */
  datatype Pins = Pins(
    mainOn: bool, mainOffSince: nat,
    aMode: Mode, bMode: Mode, aHigh: bool, bHigh: bool, lastDirWrite: nat,
    evidence: Option<Evidence>, nvs: Nvs, strokes: nat, closes: nat, at: nat)

  /** A power reading, the limit configured then, and when it was taken. */
  datatype Evidence = Evidence(reading: Reading, limit: Float, at: nat)

  datatype Log = Booted(at: nat, nvs: Nvs) | Then(before: Log, at: nat, event: Event)

  function After(p: Pins, at: nat, e: Event): Pins {
    match e
    case MainOff => p.(mainOn := false, mainOffSince := if p.mainOn then at else p.mainOffSince, at := at)
    case MainOn(Protective) => p.(mainOn := true, strokes := p.strokes + 1, at := at)
    case MainOn(ChargingClose) => p.(mainOn := true, closes := p.closes + 1, at := at)
    case MainOn(Motion) => p.(mainOn := true, at := at)
    case DirMode(DirA, m) => p.(aMode := m, at := at)
    case DirMode(DirB, m) => p.(bMode := m, at := at)
    case DirWrite(DirA, high) => p.(aHigh := high, lastDirWrite := at, at := at)
    case DirWrite(DirB, high) => p.(bHigh := high, lastDirWrite := at, at := at)
    case ReadPower(r, limit) => p.(evidence := Some(Evidence(r, limit, at)), at := at)
    case SaveHold(held) => p.(nvs := p.nvs.(hold := held), at := at)
    case SaveLid(open) => p.(nvs := p.nvs.(lidOpen := open), at := at)
    case LatchReleased => p.(strokes := 0, at := at)
    case LatchRestored => p.(at := at)
  }

  /** Initialisation leaves the main relay off and both direction relays driven HIGH. */
  function Pinned(log: Log): Pins {
    match log
    case Booted(at, nvs) =>
      Pins(false, at, Output, Output, true, true, at, None, nvs, if nvs.Durable() then 1 else 0, 0, at)
    case Then(before, at, e) => After(Pinned(before), at, e)
  }

  /** Evidence on which a closing stroke may start while protection holds. */
  predicate ClosingSafe(r: Reading, limit: Float) {
    && r.ok && r.voltage.Fin? && r.current.Fin?
    && Max(11.0, if limit.Fin? then limit.r else 11.0) < r.voltage.r <= 16.0
  }

  /** Contacts break 100 ms before a direction changes, and the direction settles
      100 ms before the main relay makes. The two directions are never both on. */
  predicate BreakBeforeMake(p: Pins, at: nat, e: Event) {
    match e
    case DirWrite(_, _) =>
      && !p.mainOn && p.mainOffSince + CONTACT_MS <= at
      && (After(p, at, e).aHigh || After(p, at, e).bHigh)
    case DirMode(_, Input) => !p.mainOn
    case DirMode(_, Output) => !p.mainOn && p.mainOffSince + CONTACT_MS <= at
    case MainOn(_) => p.lastDirWrite + CONTACT_MS <= at
    case _ => true
  }

  /** A protective stroke is recorded before it starts and is the first since the
      latch was released; once started, the record stays. */
  predicate StrokeOnce(p: Pins, at: nat, e: Event) {
    && (e == MainOn(Protective) ==> p.nvs.hold && p.strokes == 0)
    && (After(p, at, e).strokes > 0 ==> After(p, at, e).nvs.Durable())
  }

  /** A closing stroke under protection starts on a safe reading taken at that very
      moment, which is after the contacts have settled, and is the only one of its boot. */
  predicate ClosesOnEvidence(p: Pins, at: nat, e: Event) {
    e == MainOn(ChargingClose) ==>
      && p.closes == 0
      && p.evidence.Some? && p.evidence.value.at == at
      && ClosingSafe(p.evidence.value.reading, p.evidence.value.limit)
  }

  /** Main relay on and exactly one direction relay driven on. */
  predicate Driven(p: Pins) {
    p.mainOn && p.aMode == Output && p.bMode == Output && p.aHigh != p.bHigh
  }

  /** While the main relay is on, one direction is chosen, and opening is really driven. */
  predicate Directed(p: Pins) {
    p.mainOn ==> p.aHigh != p.bHigh && (!p.aHigh ==> Driven(p))
  }

  /** The main relay makes with one direction chosen. Both direction pins are driven
      outputs then, except that an ordinary closing stroke may find them undriven. */
  predicate DrivesOneDirection(p: Pins, e: Event) {
    e.MainOn? ==>
      p.aHigh != p.bHigh && (e.why != Motion || !p.aHigh ==> p.aMode == Output && p.bMode == Output)
  }

  predicate Safe(p: Pins, at: nat, e: Event) {
    && p.at <= at && BreakBeforeMake(p, at, e) && StrokeOnce(p, at, e) && ClosesOnEvidence(p, at, e)
    && DrivesOneDirection(p, e)
  }

  predicate SafeLog(log: Log) {
    log.Then? ==> SafeLog(log.before) && Safe(Pinned(log.before), log.at, log.event)
  }

  predicate Prefix(early: Log, late: Log) {
    early == late || (late.Then? && Prefix(early, late.before))
  }

  lemma {:induction false} PrefixTrans(a: Log, b: Log, c: Log)
    requires Prefix(a, b) && Prefix(b, c)
    ensures Prefix(a, c)
  {
    if b != c { PrefixTrans(a, b, c.before); }
  }

  lemma {:induction false} SafeLogHereditary(early: Log, late: Log)
    requires SafeLog(late) && Prefix(early, late)
    ensures SafeLog(early)
  {
    if early != late { SafeLogHereditary(early, late.before); }
  }

  lemma SafeStep(p: Pins, at: nat, e: Event)
    requires Safe(p, at, e) && p.strokes <= 1 && p.closes <= 1 && (p.aHigh || p.bHigh) && Directed(p)
    ensures After(p, at, e).closes <= 1
    ensures After(p, at, e).strokes <= 1 && (After(p, at, e).strokes > 0 ==> After(p, at, e).nvs.Durable())
    ensures (After(p, at, e).aHigh || After(p, at, e).bHigh) && Directed(After(p, at, e))
  {
  }

  /** At every moment of a safe log the two directions are not both on, there has
      been at most one protective stroke since the last release, and if there has been
      one a restart comes back protected, and there has been at most one closing stroke.
      While the main relay is on one direction is chosen, and an opening is driven. */
  lemma {:induction false} SafeMoments(log: Log, moment: Log)
    requires SafeLog(log) && Prefix(moment, log)
    ensures Pinned(moment).aHigh || Pinned(moment).bHigh
    ensures Pinned(moment).strokes <= 1 && Pinned(moment).closes <= 1
    ensures Pinned(moment).strokes > 0 ==> Pinned(moment).nvs.Durable()
    ensures Directed(Pinned(moment))
  {
    hide Safe, After;
    if moment != log {
      SafeMoments(log.before, moment);
    } else if log.Then? {
      SafeMoments(log.before, log.before);
      SafeStep(Pinned(log.before), log.at, log.event);
    }
  }

  /** Relay state together with the log it follows from. */
  datatype Bus = Bus(pins: Pins, log: Log) {

    predicate Consistent() {
      pins == Pinned(log)
    }

    function Do(at: nat, e: Event): Bus {
      Bus(After(pins, at, e), Then(log, at, e))
    }

    lemma DoKeeps(at: nat, e: Event)
      requires Consistent()
      ensures Do(at, e).Consistent()
      ensures Prefix(log, Do(at, e).log)
      ensures SafeLog(log) && Safe(pins, at, e) ==> SafeLog(Do(at, e).log)
    {
      assert Prefix(log, log);
    }
  }
}
