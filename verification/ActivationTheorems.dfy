/** Activation is all or nothing, and no moment on the way pairs files wrongly. */
module ActivationTheorems {
  import opened Activation

  /** The first k files are the new ones, the others as before. */
  predicate StairAt(files: seq<string>, before: seq<string>, updated: seq<string>, k: nat) {
    k <= |before| && |files| == |before| == |updated| && files == updated[..k] + before[k..]
  }

  ghost predicate OnStairs(files: seq<string>, before: seq<string>, updated: seq<string>) {
    exists k: nat :: StairAt(files, before, updated, k)
  }

  ghost predicate AllOnStairs(trail: seq<Shot>, before: seq<string>, updated: seq<string>) {
    forall i :: 0 <= i < |trail| ==> OnStairs(trail[i].files, before, updated)
  }

  /** On the stairs a new file has only new files before it: the path guard is never
      new while the variables it refers to are old. */
  lemma StairsRise(files: seq<string>, before: seq<string>, updated: seq<string>, i: nat, j: nat)
    requires OnStairs(files, before, updated) && i < j < |files|
    requires files[j] == updated[j] != before[j]
    ensures files[i] == updated[i]
  {
    var k: nat :| StairAt(files, before, updated, k);
    assert k > j;
  }

  lemma StairUp(files: seq<string>, before: seq<string>, updated: seq<string>, k: nat)
    requires StairAt(files, before, updated, k) && k < |before|
    ensures files[k] == before[k] && StairAt(files[k := updated[k]], before, updated, k + 1)
  {
  }

  lemma StairDown(files: seq<string>, before: seq<string>, updated: seq<string>, k: nat)
    requires StairAt(files, before, updated, k + 1)
    ensures files[k] == updated[k] && StairAt(files[k := before[k]], before, updated, k)
  {
  }

  lemma NotedOnStairs(c: Course, now: Shot, before: seq<string>, updated: seq<string>, k: nat)
    requires AllOnStairs(c.trail, before, updated) && StairAt(now.files, before, updated, k)
    ensures AllOnStairs(Noted(c, now).trail, before, updated)
  {
  }

  /** File i can be read, is what the plan says, and its replacement works. */
  predicate Goes(files: seq<string>, p: Plan, f: Faults, i: nat)
    requires i < |files| == |p.originals|
  {
    f.readable(i) && files[i] == p.originals[i] && f.writes(i) == Done
  }

  /** All goes well from file `from` to file k, whose replacement takes effect but reports
      a failure. */
  predicate SlipsAt(files: seq<string>, p: Plan, f: Faults, from: nat, k: nat) {
    && from <= k < |files| == |p.originals| && (forall i :: from <= i < k ==> Goes(files, p, f, i))
    && f.readable(k) && files[k] == p.originals[k] && f.writes(k) == DoneButFailed
  }

  ghost predicate Slips(c: Course, p: Plan, f: Faults) {
    exists k: nat :: SlipsAt(c.now.files, p, f, 0, k)
  }

  /** The forward pass stopped at such a file. */
  predicate Slipped(before: seq<string>, p: Plan, f: Faults, pass: Pass) {
    && !pass.ok && pass.changed < |before| == |p.originals|
    && f.readable(pass.changed) && before[pass.changed] == p.originals[pass.changed]
    && f.writes(pass.changed) == DoneButFailed
  }

  /** It does exactly when there is one, and that is where it stops. */
  lemma {:induction false} ForwardSlips(c: Course, p: Plan, f: Faults, from: nat)
    requires Fits(c, p) && from <= |p.originals|
    ensures
      var pass := Forward(c, p, f, from);
      forall k: nat :: SlipsAt(c.now.files, p, f, from, k) <==> k == pass.changed && Slipped(c.now.files, p, f, pass)
    decreases |p.originals| - from
  {
    var files := c.now.files;
    if from < |files| && Goes(files, p, f, from) {
      var put := Put(c, from, p.updated[from], Done);
      ForwardSlips(put, p, f, from + 1);
      forall k: nat | k != from
        ensures SlipsAt(files, p, f, from, k) <==> SlipsAt(put.now.files, p, f, from + 1, k)
      {
        LaterSlip(files, p, f, from, k, p.updated[from]);
      }
    }
  }

  lemma SlipsExactly(c: Course, p: Plan, f: Faults)
    requires Fits(c, p)
    ensures
      var pass := Forward(c, p, f, 0);
      && (Slips(c, p, f) <==> Slipped(c.now.files, p, f, pass))
      && (forall k: nat :: SlipsAt(c.now.files, p, f, 0, k) ==> k == pass.changed && Slips(c, p, f))
  {
    hide Slipped, SlipsAt;
    ForwardSlips(c, p, f, 0);
    var pass := Forward(c, p, f, 0);
    assert Slipped(c.now.files, p, f, pass) ==> SlipsAt(c.now.files, p, f, 0, pass.changed);
  }

  lemma LaterSlip(files: seq<string>, p: Plan, f: Faults, from: nat, k: nat, content: string)
    requires from < |files| == |p.originals| && Goes(files, p, f, from) && k != from
    ensures SlipsAt(files, p, f, from, k) <==> SlipsAt(files[from := content], p, f, from + 1, k)
  {
    var later := files[from := content];
    if SlipsAt(later, p, f, from + 1, k) {
      forall i | from <= i < k ensures Goes(files, p, f, i) { assert i != from ==> Goes(later, p, f, i); }
    }
    if SlipsAt(files, p, f, from, k) {
      forall i | from + 1 <= i < k ensures Goes(later, p, f, i) { assert Goes(files, p, f, i); }
    }
  }

  lemma {:induction false} ForwardClimbs(c: Course, p: Plan, f: Faults, from: nat, before: seq<string>)
    requires Fits(c, p) && from <= |p.originals| == |before| && StairAt(c.now.files, before, p.updated, from)
    requires AllOnStairs(c.trail, before, p.updated) && before[..from] == p.originals[..from]
    ensures
      var pass := Forward(c, p, f, from);
      var now := pass.course.now;
      && AllOnStairs(pass.course.trail, before, p.updated)
      && StairAt(now.files, before, p.updated, if Slipped(before, p, f, pass) then pass.changed + 1 else pass.changed)
      && before[..pass.changed] == p.originals[..pass.changed]
      && now.config == c.now.config && now.loaded == c.now.loaded
      && (pass.ok ==> pass.changed == |before|)
    decreases |p.originals| - from
  {
    hide AllOnStairs, StairAt;
    if from < |before| {
      StairUp(c.now.files, before, p.updated, from);
      if f.readable(from) && c.now.files[from] == p.originals[from] {
        var put := Put(c, from, p.updated[from], f.writes(from));
        NotedOnStairs(c, put.now, before, p.updated, if f.writes(from) == NotDone then from else from + 1);
        if f.writes(from) == Done {
          assert before[..from + 1] == before[..from] + [before[from]];
          ForwardClimbs(put, p, f, from + 1, before);
        }
      }
    }
  }

  lemma {:induction false} UndoDescends(c: Course, p: Plan, f: Faults, changed: nat, before: seq<string>)
    requires Fits(c, p) && changed <= |p.originals| == |before| && StairAt(c.now.files, before, p.updated, changed)
    requires AllOnStairs(c.trail, before, p.updated) && before[..changed] == p.originals[..changed]
    ensures AllOnStairs(Undo(c, p, f, changed).course.trail, before, p.updated)
    decreases changed
  {
    hide AllOnStairs, StairAt;
    if changed == 0 {
      BindingStays(c, p, f, before, 0);
    } else {
      var i := changed - 1;
      StairDown(c.now.files, before, p.updated, i);
      assert p.originals[i] == p.originals[..changed][i] == before[i];
      var put := Put(c, i, p.originals[i], f.undos(i));
      NotedOnStairs(c, put.now, before, p.updated, if f.undos(i) == NotDone then changed else i);
      if f.undos(i) == Done {
        assert before[..i] == before[..changed][..i] && p.originals[..i] == p.originals[..changed][..i];
        UndoDescends(put, p, f, i, before);
      }
    }
  }

  lemma BindingStays(c: Course, p: Plan, f: Faults, before: seq<string>, k: nat)
    requires AllOnStairs(c.trail, before, p.updated) && StairAt(c.now.files, before, p.updated, k)
    ensures AllOnStairs(UndoBinding(c, p, f).course.trail, before, p.updated)
  {
    hide AllOnStairs, StairAt;
    var put := PutConfig(c, p.configBytes, f.configUndo);
    NotedOnStairs(c, put.now, before, p.updated, k);
    NotedOnStairs(c, Load(c, f.retested, f.undoReload).now, before, p.updated, k);
    NotedOnStairs(put, Load(put, f.retested, f.undoReload).now, before, p.updated, k);
  }

  /** At every moment, so also wherever the installer is killed, the new files are the
      first ones, unless a guard replacement fails after taking effect. */
  lemma EveryMomentOnStairs(c: Course, p: Plan, f: Faults)
    requires Fits(c, p) && c.trail == [c.now] && !Slips(c, p, f)
    ensures AllOnStairs(Activate(c, p, f).course.trail, c.now.files, p.updated)
  {
    hide AllOnStairs, StairAt, Forward, Undo, SlipsAt, Slips;
    var before := c.now.files;
    FirstStep(c, p);
    SlipsExactly(c, p, f);
    ForwardClimbs(c, p, f, 0, before);
    var pass := Forward(c, p, f, 0);
    if !pass.ok {
      UndoDescends(pass.course, p, f, pass.changed, before);
    } else {
      var live := Load(pass.course, f.tested, f.reload);
      var bound := PutConfig(live, p.newConfig, f.configWrite);
      NotedOnStairs(pass.course, live.now, before, p.updated, pass.changed);
      NotedOnStairs(live, bound.now, before, p.updated, pass.changed);
      UndoDescends(live, p, f, pass.changed, before);
      UndoDescends(bound, p, f, pass.changed, before);
    }
  }

  lemma FirstStep(c: Course, p: Plan)
    requires Fits(c, p) && c.trail == [c.now]
    ensures StairAt(c.now.files, c.now.files, p.updated, 0) && AllOnStairs(c.trail, c.now.files, p.updated)
    ensures c.now.files[..0] == p.originals[..0]
  {
    assert StairAt(c.now.files, c.now.files, p.updated, 0);
  }

  // ---- The end ----

  predicate UndoWorks(p: Plan, f: Faults) {
    && f.configRereadable && f.configUndo == Done
    && forall i :: 0 <= i < |p.originals| ==> f.rereadable(i) && f.undos(i) == Done
  }

  lemma {:induction false} UndoRestores(c: Course, p: Plan, f: Faults, changed: nat)
    requires Fits(c, p) && changed <= |p.originals| && UndoWorks(p, f)
    requires c.now.files[..changed] == p.updated[..changed] && c.now.config in {p.configBytes, p.newConfig}
    ensures
      var e := Undo(c, p, f, changed);
      && e.outcome in {Restored, Unconfirmed}
      && e.course.now.files == p.originals[..changed] + c.now.files[changed..]
      && e.course.now.config == p.configBytes
      && (e.outcome == Restored ==> e.course.now.loaded == e.course.now.files)
    decreases changed
  {
    if changed > 0 {
      var i := changed - 1;
      assert c.now.files[i] == c.now.files[..changed][i] == p.updated[i];
      var put := Put(c, i, p.originals[i], f.undos(i));
      assert put.now.files[..i] == c.now.files[..changed][..i] == p.updated[..i];
      UndoRestores(put, p, f, i);
      assert put.now.files[i..] == [p.originals[i]] + c.now.files[changed..];
      assert p.originals[..changed] == p.originals[..i] + [p.originals[i]];
    }
  }

  lemma {:induction false} UndoNeverInstalls(c: Course, p: Plan, f: Faults, changed: nat)
    requires Fits(c, p) && changed <= |p.originals|
    ensures Undo(c, p, f, changed).outcome != Installed
    decreases changed
  {
    if changed > 0 && f.undos(changed - 1) == Done {
      UndoNeverInstalls(Put(c, changed - 1, p.originals[changed - 1], Done), p, f, changed - 1);
    }
  }

  /** From a stair, undoing brings back what was before it. */
  lemma UndoneFrom(c: Course, p: Plan, f: Faults, changed: nat, top: nat, before: seq<string>)
    requires Fits(c, p) && UndoWorks(p, f) && |before| == |p.originals| && changed <= top <= changed + 1
    requires StairAt(c.now.files, before, p.updated, top) && before[..changed] == p.originals[..changed]
    requires c.now.config in {p.configBytes, p.newConfig}
    ensures
      var e := Undo(c, p, f, changed);
      && e.outcome in {Restored, Unconfirmed} && e.course.now.config == p.configBytes
      && e.course.now.files == (if top == changed then before else before[changed := p.updated[changed]])
      && (e.outcome == Restored ==> e.course.now.loaded == e.course.now.files)
  {
    hide Undo;
    assert c.now.files[..changed] == p.updated[..changed];
    UndoRestores(c, p, f, changed);
    if top == changed {
      assert p.originals[..changed] + c.now.files[changed..] == before;
    } else {
      assert p.originals[..changed] + c.now.files[changed..] == before[changed := p.updated[changed]];
    }
  }

  /** Installed means everything new, on disk and in the running proxy. Otherwise, if the
      undoing can write, everything is as before, except a file whose replacement took
      effect but reported a failure: that one file stays new. */
  lemma AllOrNothing(c: Course, p: Plan, f: Faults)
    requires Fits(c, p) && c.now.config == p.configBytes
    ensures
      var e := Activate(c, p, f);
      var now := e.course.now;
      && (e.outcome == Installed ==>
            now.files == p.updated && now.config == p.newConfig && now.loaded == p.updated && !Slips(c, p, f))
      && (e.outcome != Installed && UndoWorks(p, f) ==>
            && e.outcome in {Restored, Unconfirmed} && now.config == p.configBytes
            && (e.outcome == Restored ==> now.loaded == now.files)
            && (!Slips(c, p, f) ==> now.files == c.now.files)
            && (forall k: nat :: SlipsAt(c.now.files, p, f, 0, k) ==> now.files == c.now.files[k := p.updated[k]]))
  {
    hide StairAt, Forward, Undo, SlipsAt, Slips;
    SlipsExactly(c, p, f);
    var before := c.now.files;
    var bare := c.(trail := [c.now]);
    FirstStep(bare, p);
    ForwardIgnoresTrail(c, bare, p, f, 0);
    ForwardClimbs(bare, p, f, 0, before);
    var pass := Forward(c, p, f, 0);
    var live := Load(pass.course, f.tested, f.reload);
    var bound := PutConfig(live, p.newConfig, f.configWrite);
    UndoNeverInstalls(pass.course, p, f, pass.changed);
    UndoNeverInstalls(live, p, f, pass.changed);
    UndoNeverInstalls(bound, p, f, pass.changed);
    if pass.ok { TopStair(pass.course.now.files, before, p.updated); }
    if UndoWorks(p, f) {
      if !pass.ok {
        var top := if Slipped(before, p, f, pass) then pass.changed + 1 else pass.changed;
        UndoneFrom(pass.course, p, f, pass.changed, top, before);
      } else {
        UndoneFrom(live, p, f, pass.changed, pass.changed, before);
        UndoneFrom(bound, p, f, pass.changed, pass.changed, before);
      }
    }
  }

  lemma TopStair(files: seq<string>, before: seq<string>, updated: seq<string>)
    requires StairAt(files, before, updated, |before|)
    ensures files == updated
  {
  }

  lemma {:induction false} ForwardIgnoresTrail(c: Course, d: Course, p: Plan, f: Faults, from: nat)
    requires Fits(c, p) && from <= |p.originals| && c.now == d.now
    ensures
      var a, b := Forward(c, p, f, from), Forward(d, p, f, from);
      a.changed == b.changed && a.ok == b.ok && a.course.now == b.course.now
    decreases |p.originals| - from
  {
    if from < |p.originals| && f.readable(from) && c.now.files[from] == p.originals[from] && f.writes(from) == Done {
      ForwardIgnoresTrail(Put(c, from, p.updated[from], Done), Put(d, from, p.updated[from], Done), p, f, from + 1);
    }
  }

  /** With undoing that can write and files that really change, activation is all or
      nothing exactly when no guard replacement fails after taking effect. */
  lemma AllOrNothingExactly(c: Course, p: Plan, f: Faults)
    requires Fits(c, p) && c.now.config == p.configBytes && UndoWorks(p, f)
    requires p.newConfig != p.configBytes && forall i :: 0 <= i < |p.updated| ==> p.updated[i] != c.now.files[i]
    ensures
      var now := Activate(c, p, f).course.now;
      ((now.files == p.updated && now.config == p.newConfig) || (now.files == c.now.files && now.config == p.configBytes))
      <==> !Slips(c, p, f)
  {
    hide Activate, Forward;
    AllOrNothing(c, p, f);
    if Slips(c, p, f) {
      var k: nat :| SlipsAt(c.now.files, p, f, 0, k);
      assert c.now.files[k := p.updated[k]][k] != c.now.files[k];
    }
  }

  // ---- When it works ----

  /** Every step does what it should. */
  ghost predicate AllWorks(c: Course, p: Plan, f: Faults) {
    && |c.now.files| == |p.originals|
    && (forall i :: 0 <= i < |p.originals| ==> Goes(c.now.files, p, f, i))
    && f.tested && f.reload == Loaded && Answers(f) && f.configReadable && c.now.config == p.configBytes
    && f.configWrite == Done
  }

  lemma {:induction false} ForwardWorks(c: Course, p: Plan, f: Faults, from: nat)
    requires Fits(c, p) && from <= |p.originals|
    ensures Forward(c, p, f, from).ok <==> forall i :: from <= i < |p.originals| ==> Goes(c.now.files, p, f, i)
    ensures Forward(c, p, f, from).course.now.config == c.now.config
    decreases |p.originals| - from
  {
    var files := c.now.files;
    if from < |files| && Goes(files, p, f, from) {
      var put := Put(c, from, p.updated[from], Done);
      ForwardWorks(put, p, f, from + 1);
      forall i | from < i < |files| ensures Goes(put.now.files, p, f, i) <==> Goes(files, p, f, i) {}
    }
  }

  /** Activation is installed exactly when every step of it works. */
  lemma InstallsExactly(c: Course, p: Plan, f: Faults)
    requires Fits(c, p)
    ensures Activate(c, p, f).outcome == Installed <==> AllWorks(c, p, f)
  {
    hide Forward, Undo;
    var pass := Forward(c, p, f, 0);
    var live := Load(pass.course, f.tested, f.reload);
    ForwardWorks(c, p, f, 0);
    UndoNeverInstalls(pass.course, p, f, pass.changed);
    UndoNeverInstalls(live, p, f, pass.changed);
    UndoNeverInstalls(PutConfig(live, p.newConfig, f.configWrite), p, f, pass.changed);
  }

  // ---- The binding comes last ----

  predicate BindsLast(trail: seq<Shot>, p: Plan) {
    forall i :: 0 < i < |trail| && trail[i].config == p.newConfig && trail[i - 1].config == p.configBytes ==>
      trail[i].files == p.updated && trail[i].loaded == p.updated
  }

  predicate Recorded(c: Course) {
    c.trail != [] && c.trail[|c.trail| - 1] == c.now
  }

  lemma NotedBinds(c: Course, now: Shot, p: Plan)
    requires Recorded(c) && BindsLast(c.trail, p)
    requires now.config == p.newConfig && c.now.config == p.configBytes ==> now.files == p.updated && now.loaded == p.updated
    ensures Recorded(Noted(c, now)) && BindsLast(Noted(c, now).trail, p)
  {
  }

  lemma {:induction false} ForwardBinds(c: Course, p: Plan, f: Faults, from: nat)
    requires Fits(c, p) && from <= |p.originals| && p.newConfig != p.configBytes
    requires Recorded(c) && BindsLast(c.trail, p)
    ensures
      var d := Forward(c, p, f, from).course;
      Recorded(d) && BindsLast(d.trail, p) && d.now.config == c.now.config
    decreases |p.originals| - from
  {
    hide Recorded, BindsLast;
    if from < |p.originals| && f.readable(from) && c.now.files[from] == p.originals[from] {
      var put := Put(c, from, p.updated[from], f.writes(from));
      NotedBinds(c, put.now, p);
      if f.writes(from) == Done { ForwardBinds(put, p, f, from + 1); }
    }
  }

  lemma {:induction false} UndoBinds(c: Course, p: Plan, f: Faults, changed: nat)
    requires Fits(c, p) && changed <= |p.originals| && p.newConfig != p.configBytes
    requires Recorded(c) && BindsLast(c.trail, p)
    ensures BindsLast(Undo(c, p, f, changed).course.trail, p)
    decreases changed
  {
    hide Recorded, BindsLast;
    if changed > 0 {
      var put := Put(c, changed - 1, p.originals[changed - 1], f.undos(changed - 1));
      NotedBinds(c, put.now, p);
      if f.undos(changed - 1) == Done { UndoBinds(put, p, f, changed - 1); }
    } else {
      var put := PutConfig(c, p.configBytes, f.configUndo);
      NotedBinds(c, put.now, p);
      NotedBinds(c, Load(c, f.retested, f.undoReload).now, p);
      NotedBinds(put, Load(put, f.retested, f.undoReload).now, p);
    }
  }

  /** The gateway is bound to the new files only when they are all in place, loaded by the
      proxy, and answering. */
  lemma BindingComesLast(c: Course, p: Plan, f: Faults)
    requires Fits(c, p) && c.trail == [c.now] && p.newConfig != p.configBytes
    ensures BindsLast(Activate(c, p, f).course.trail, p)
    ensures Activate(c, p, f).outcome == Installed ==> f.tested && f.reload == Loaded && Answers(f)
  {
    hide BindsLast, Forward, Undo, StairAt, AllOnStairs;
    var pass := Forward(c, p, f, 0);
    var live := Load(pass.course, f.tested, f.reload);
    var bound := PutConfig(live, p.newConfig, f.configWrite);
    SingleBinds(c, p);
    ForwardBinds(c, p, f, 0);
    UndoNeverInstalls(pass.course, p, f, pass.changed);
    UndoNeverInstalls(live, p, f, pass.changed);
    UndoNeverInstalls(bound, p, f, pass.changed);
    if !pass.ok {
      UndoBinds(pass.course, p, f, pass.changed);
    } else {
      NotedBinds(pass.course, live.now, p);
      UndoBinds(live, p, f, pass.changed);
      if f.tested && f.reload == Loaded {
        FirstStep(c, p);
        ForwardClimbs(c, p, f, 0, c.now.files);
        TopStair(pass.course.now.files, c.now.files, p.updated);
        NotedBinds(live, bound.now, p);
        UndoBinds(bound, p, f, pass.changed);
      }
    }
  }

  lemma SingleBinds(c: Course, p: Plan)
    requires c.trail == [c.now]
    ensures Recorded(c) && BindsLast(c.trail, p)
  {
  }
}
