/** Activation of a new proxy policy: guard files replaced in order, a reload, live
    checks, then the gateway binding; and its undoing when a step fails. */
module Activation {

  /** A replacement is atomic. It may fail without effect, or report a failure after it
      took effect. */
  datatype Write = Done | NotDone | DoneButFailed

  datatype Reload = Loaded | NotLoaded | LoadedButFailed

  /** What each fallible step meets. Guard files are numbered in their order. */
  datatype Faults = Faults(
    readable: nat -> bool, writes: nat -> Write, tested: bool, reload: Reload, answers: nat -> bool,
    configReadable: bool, configWrite: Write,
    rereadable: nat -> bool, undos: nat -> Write, configRereadable: bool, configUndo: Write,
    retested: bool, undoReload: Reload)

  /** Broken: an undoing step failed by itself. Restored: the first failure is reported
      after the undoing. */
  datatype Outcome = Installed | Restored | Unconfirmed | Broken

  /** The disk, and the files the running proxy has loaded. */
  datatype Shot = Shot(files: seq<string>, config: string, loaded: seq<string>)

  /** The present moment, and every moment after a step that may have changed something. */
  datatype Course = Course(now: Shot, trail: seq<Shot>)

  datatype Plan = Plan(originals: seq<string>, updated: seq<string>, configBytes: string, newConfig: string)

  predicate Fits(c: Course, p: Plan) {
    |c.now.files| == |p.originals| == |p.updated|
  }

  function Noted(c: Course, now: Shot): Course {
    Course(now, c.trail + [now])
  }

  function Put(c: Course, i: nat, content: string, w: Write): Course
    requires i < |c.now.files|
  {
    Noted(c, if w == NotDone then c.now else c.now.(files := c.now.files[i := content]))
  }

  function PutConfig(c: Course, content: string, w: Write): Course {
    Noted(c, if w == NotDone then c.now else c.now.(config := content))
  }

  function Load(c: Course, tested: bool, r: Reload): Course {
    Noted(c, if !tested || r == NotLoaded then c.now else c.now.(loaded := c.now.files))
  }

  /** The forward pass over the guard files from number `from` on. */
  datatype Pass = Pass(course: Course, changed: nat, ok: bool)

  function Forward(c: Course, p: Plan, f: Faults, from: nat): (r: Pass)
    requires Fits(c, p) && from <= |p.originals|
    ensures from <= r.changed <= |p.originals| && Fits(r.course, p)
    decreases |p.originals| - from
  {
    if from == |p.originals| then Pass(c, from, true)
    else if !f.readable(from) || c.now.files[from] != p.originals[from] then Pass(c, from, false)
    else
      var put := Put(c, from, p.updated[from], f.writes(from));
      if f.writes(from) == Done then Forward(put, p, f, from + 1) else Pass(put, from, false)
  }

  predicate Answers(f: Faults) {
    f.answers(0) && f.answers(1)
  }

  datatype Ended = Ended(course: Course, outcome: Outcome)

  function Activate(c: Course, p: Plan, f: Faults): Ended
    requires Fits(c, p)
  {
    var pass := Forward(c, p, f, 0);
    if !pass.ok then Undo(pass.course, p, f, pass.changed)
    else
      var live := Load(pass.course, f.tested, f.reload);
      if !f.tested || f.reload != Loaded || !Answers(f) || !f.configReadable || live.now.config != p.configBytes
      then Undo(live, p, f, pass.changed)
      else
        var bound := PutConfig(live, p.newConfig, f.configWrite);
        if f.configWrite == Done then Ended(bound, Installed) else Undo(bound, p, f, pass.changed)
  }

  /** Last file first, so that the path guard goes before the variables it refers to. */
  function Undo(c: Course, p: Plan, f: Faults, changed: nat): Ended
    requires Fits(c, p) && changed <= |p.originals|
    decreases changed
  {
    if changed == 0 then UndoBinding(c, p, f)
    else
      var i := changed - 1;
      if !f.rereadable(i) then Ended(c, Broken)
      else if c.now.files[i] != p.updated[i] then Ended(c, Unconfirmed)
      else
        var put := Put(c, i, p.originals[i], f.undos(i));
        if f.undos(i) == Done then Undo(put, p, f, i) else Ended(put, Broken)
  }

  function UndoBinding(c: Course, p: Plan, f: Faults): Ended {
    if !f.configRereadable then Ended(c, Broken)
    else if c.now.config == p.configBytes then UndoLoad(c, f)
    else if c.now.config != p.newConfig then Ended(c, Unconfirmed)
    else
      var put := PutConfig(c, p.configBytes, f.configUndo);
      if f.configUndo == Done then UndoLoad(put, f) else Ended(put, Broken)
  }

  function UndoLoad(c: Course, f: Faults): Ended {
    Ended(Load(c, f.retested, f.undoReload),
          if f.retested && f.undoReload == Loaded then Restored else Unconfirmed)
  }

  // ---- As the installer does it, in place ----

  class Host {
    const files: array<string>
    var config: string
    var loaded: seq<string>
    ghost var trail: seq<Shot>

    ghost function Value(): Course
      reads this, files
    {
      Course(Shot(files[..], config, loaded), trail)
    }

    method Replace(i: nat, content: string, w: Write) returns (ok: bool)
      requires i < files.Length
      modifies files, this`trail
      ensures Value() == Put(old(Value()), i, content, w) && ok == w.Done?
    {
      if w != NotDone { files[i] := content; }
      trail := trail + [Value().now];
      ok := w == Done;
    }

    method ReplaceConfig(content: string, w: Write) returns (ok: bool)
      modifies this`config, this`trail
      ensures Value() == PutConfig(old(Value()), content, w) && ok == w.Done?
    {
      if w != NotDone { config := content; }
      trail := trail + [Value().now];
      ok := w == Done;
    }

    method ReloadProxy(tested: bool, r: Reload) returns (ok: bool)
      modifies this`loaded, this`trail
      ensures Value() == Load(old(Value()), tested, r) && ok == (tested && r.Loaded?)
    {
      if tested && r != NotLoaded { loaded := files[..]; }
      trail := trail + [Value().now];
      ok := tested && r == Loaded;
    }

    method ReplaceGuards(p: Plan, f: Faults) returns (changed: nat, ok: bool)
      requires Fits(Value(), p)
      modifies files, this`trail
      ensures Pass(Value(), changed, ok) == Forward(old(Value()), p, f, 0)
    {
      changed := 0;
      while changed < files.Length
        invariant 0 <= changed <= files.Length
        invariant Forward(Value(), p, f, changed) == Forward(old(Value()), p, f, 0)
      {
        if !f.readable(changed) || files[changed] != p.originals[changed] { return changed, false; }
        var written := Replace(changed, p.updated[changed], f.writes(changed));
        if !written { return changed, false; }
        changed := changed + 1;
      }
      ok := true;
    }

    method Run(p: Plan, f: Faults) returns (outcome: Outcome)
      requires Fits(Value(), p)
      modifies this, files
      ensures Ended(Value(), outcome) == Activate(old(Value()), p, f)
    {
      hide Forward, Undo;
      var changed, ok := ReplaceGuards(p, f);
      if ok { ok := ReloadProxy(f.tested, f.reload); }
      if ok { ok := Answers(f) && f.configReadable && config == p.configBytes; }
      if ok { ok := ReplaceConfig(p.newConfig, f.configWrite); }
      if ok { return Installed; }
      outcome := TakeBack(changed, p, f);
    }

    method TakeBack(changed: nat, p: Plan, f: Faults) returns (outcome: Outcome)
      requires Fits(Value(), p) && changed <= files.Length
      modifies this, files
      ensures Ended(Value(), outcome) == Undo(old(Value()), p, f, changed)
    {
      hide UndoBinding;
      var left := changed;
      while left > 0
        invariant 0 <= left <= changed
        invariant Undo(Value(), p, f, left) == Undo(old(Value()), p, f, changed)
      {
        var i := left - 1;
        if !f.rereadable(i) { return Broken; }
        if files[i] != p.updated[i] { return Unconfirmed; }
        var written := Replace(i, p.originals[i], f.undos(i));
        if !written { return Broken; }
        left := i;
      }
      outcome := TakeBackBinding(p, f);
    }

    method TakeBackBinding(p: Plan, f: Faults) returns (outcome: Outcome)
      modifies this
      ensures Ended(Value(), outcome) == UndoBinding(old(Value()), p, f)
    {
      if !f.configRereadable { return Broken; }
      if config != p.configBytes {
        if config != p.newConfig { return Unconfirmed; }
        var written := ReplaceConfig(p.configBytes, f.configUndo);
        if !written { return Broken; }
      }
      var reloaded := ReloadProxy(f.retested, f.undoReload);
      outcome := if reloaded then Restored else Unconfirmed;
    }
  }
}
