/** What the idle lid has seen over a run, and what it therefore does: the approach that
    opens it, the clear path that ends a sensor deadlock, and the cooldown after a close. */
module LidWatch {
  import opened Numeric
  import opened BatteryPolicy
  import opened DistanceFilter
  import opened Gpio
  import opened Lid
  import opened LidInvariant
  import opened LidLog
  import opened LidDirections
  import opened LidSense
  import opened ZeroTimer

  /** The controller with the looks since it last became idle, and with the looks taken
      in any idle period since the present sensor deadlock began. */
  datatype Watched = Watched(lid: Lid, approach: seq<Look>, clearing: seq<Look>)

  function Watch(w: Watched, op: Op): Watched {
    var l := w.lid;
    var l' := Perform(l, op);
    var approach :=
      if l.state != Idle || l'.state != Idle || op == EndUpdate then []
      else if LooksIdle(l, op) then w.approach + [Approach(l, op.env)]
      else w.approach;
    var clearing :=
      if !l.sense.deadlock || !l'.sense.deadlock then []
      else if LooksIdle(l, op) then w.clearing + [Clearing(l, op.env)]
      else w.clearing;
    Watched(l', approach, clearing)
  }

  function WatchAll(w: Watched, ops: seq<Op>): Watched
    decreases |ops|
  {
    if ops == [] then w else WatchAll(Watch(w, ops[0]), ops[1..])
  }

  function Fresh(l: Lid): Watched {
    Watched(l, [], [])
  }

  lemma {:induction false} WatchesTheRun(w: Watched, ops: seq<Op>)
    ensures WatchAll(w, ops).lid == RunOps(w.lid, ops)
    decreases |ops|
  {
    hide Perform;
    if ops != [] { WatchesTheRun(Watch(w, ops[0]), ops[1..]); }
  }

  predicate UpTo(h: seq<Look>, clock: nat) {
    InOrder(h) && (h != [] ==> h[|h| - 1].at <= clock)
  }

  lemma UpToSnoc(h: seq<Look>, look: Look, clock: nat)
    requires UpTo(h, clock) && clock <= look.at
    ensures UpTo(h + [look], look.at) && InOrder(h + [look])
    ensures TimerAfter(h + [look]) == Stepped(TimerAfter(h), look)
  {
    assert (h + [look])[..|h|] == h;
  }

  lemma NothingSeen(clock: nat)
    ensures TimerAfter([]) == 0 && UpTo([], clock)
  {
  }

  /** The timers stand for the looks. */
  predicate Kept(w: Watched) {
    && Inv(w.lid) && Filtered(w.lid.sense) && Locked(w.lid.sense)
    && w.lid.sense.lastDetect == TimerAfter(w.approach) && (w.lid.state != Idle ==> w.approach == [])
    && w.lid.sense.deadlockClear == TimerAfter(w.clearing) && (!w.lid.sense.deadlock ==> w.clearing == [])
    && UpTo(w.approach, w.lid.clock) && UpTo(w.clearing, w.lid.clock)
  }

  lemma LookKeeps(w: Watched, env: Env)
    requires Kept(w) && LooksIdle(w.lid, Tick(env))
    ensures Kept(Watch(w, Tick(env)))
  {
    hide Inv, Update, Approach, Clearing, ServicePower, Filtered, Prefix, TimerAfter, Stepped, Fires, InOrder;
    var l := w.lid;
    NothingSeen(l.clock);
    LookDoes(l, env);
    PerformKeeps(l, Tick(env));
    PerformExtends(l, Tick(env));
    UpToSnoc(w.approach, Approach(l, env), l.clock);
    UpToSnoc(w.clearing, Clearing(l, env), l.clock);
  }

  lemma UpToLater(h: seq<Look>, early: nat, late: nat)
    requires UpTo(h, early) && early <= late
    ensures UpTo(h, late)
  {
  }

  lemma OtherKeeps(w: Watched, op: Op)
    requires Kept(w) && !LooksIdle(w.lid, op)
    ensures Kept(Watch(w, op))
  {
    hide Inv, Perform, Approach, Clearing, Filtered, TimerAfter, LooksIdle, Prefix, UpTo;
    var late := Perform(w.lid, op).clock;
    NothingSeen(late);
    OpLoose(w.lid, op);
    PerformKeeps(w.lid, op);
    PerformExtends(w.lid, op);
    UpToLater(w.approach, w.lid.clock, late);
    UpToLater(w.clearing, w.lid.clock, late);
  }

  lemma WatchKeeps(w: Watched, op: Op)
    requires Kept(w)
    ensures Kept(Watch(w, op))
  {
    hide Kept, Watch, ServicePower;
    if LooksIdle(w.lid, op) { LookKeeps(w, op.env); } else { OtherKeeps(w, op); }
  }

  lemma {:induction false} RunKeepsWatch(w: Watched, ops: seq<Op>)
    requires Kept(w)
    ensures Kept(WatchAll(w, ops))
    decreases |ops|
  {
    hide Kept, Watch;
    if ops != [] {
      WatchKeeps(w, ops[0]);
      RunKeepsWatch(Watch(w, ops[0]), ops[1..]);
    }
  }

  lemma BootIsWatched(nvs: Nvs, clock: nat, config: Config, r: Reading)
    ensures Kept(Fresh(Boot(nvs, clock, config, r)))
  {
    hide Inv;
    BootKeeps(nvs, clock, config, r);
    StillFar();
    BootSense(nvs, clock, config, r);
  }

  lemma BootSense(nvs: Nvs, clock: nat, config: Config, r: Reading)
    ensures
      var s := Boot(nvs, clock, config, r).sense;
      s.lastDetect == 0 && s.deadlockClear == 0 && s.distance == FAR && s.window == ALL_FAR
  {
    hide Sampled, Bus.Do;
  }

  lemma LookIsInOrder(w: Watched, env: Env)
    requires Kept(w) && LooksIdle(w.lid, Tick(env))
    ensures InOrder(w.approach + [Approach(w.lid, env)]) && InOrder(w.clearing + [Clearing(w.lid, env)])
  {
    hide Inv, Update, Approach, Clearing, Median, ServicePower, Prefix, TimerAfter;
    LookDoes(w.lid, env);
    PerformExtends(w.lid, Tick(env));
    UpToSnoc(w.approach, Approach(w.lid, env), w.lid.clock);
    UpToSnoc(w.clearing, Clearing(w.lid, env), w.lid.clock);
  }

  lemma LookFires(w: Watched, env: Env)
    requires Kept(w) && LooksIdle(w.lid, Tick(env))
    ensures Update(w.lid, env).state == OpenStart <==>
            Lasted(w.approach, Approach(w.lid, env), w.lid.config.debounceDelay)
    ensures !Update(w.lid, env).sense.deadlock <==>
            !w.lid.sense.deadlock || Lasted(w.clearing, Clearing(w.lid, env), 10000)
  {
    hide Inv, Update, Approach, Clearing, ServicePower, TimerAfter, Lasted, Fires, Stepped, InOrder, Median;
    LookIsInOrder(w, env);
    LookDoes(w.lid, env);
    FiresExactly(w.approach, Approach(w.lid, env), w.lid.config.debounceDelay);
    FiresExactly(w.clearing, Clearing(w.lid, env), 10000);
  }

  lemma WatchedFromBoot(nvs: Nvs, clock: nat, config: Config, first: Reading, ops: seq<Op>)
    ensures
      var b := Boot(nvs, clock, config, first);
      var w := WatchAll(Fresh(b), ops);
      Kept(w) && w.lid == RunOps(b, ops)
  {
    hide Kept, Boot, WatchAll, RunOps;
    BootIsWatched(nvs, clock, config, first);
    RunKeepsWatch(Fresh(Boot(nvs, clock, config, first)), ops);
    WatchesTheRun(Fresh(Boot(nvs, clock, config, first)), ops);
  }

  /** In any run: an idle tick opens the lid exactly when this look and all looks back to
      the mark found someone near, for the debounce time counted modulo 2^32; so never
      without that much real time. The mark is the first such look since the lid became
      idle that the counter does not show as zero. */
  lemma IdleOpensExactly(nvs: Nvs, clock: nat, config: Config, first: Reading, ops: seq<Op>, env: Env)
    requires LooksIdle(RunOps(Boot(nvs, clock, config, first), ops), Tick(env))
    ensures
      var w := WatchAll(Fresh(Boot(nvs, clock, config, first)), ops);
      var look, looks := Approach(w.lid, env), w.approach;
      var opens := Update(w.lid, env).state == OpenStart;
      && w.lid == RunOps(Boot(nvs, clock, config, first), ops)
      && (opens <==> Lasted(looks, look, w.lid.config.debounceDelay))
      && (opens ==> Mark(looks).Some? && GoodFrom(looks + [look], Mark(looks).value) &&
                    look.at - looks[Mark(looks).value].at >= w.lid.config.debounceDelay)
  {
    hide Boot, RunOps, WatchAll, Update, Approach, LooksIdle, Lasted, Mark, GoodFrom, InOrder, Kept;
    WatchedFromBoot(nvs, clock, config, first, ops);
    var w := WatchAll(Fresh(Boot(nvs, clock, config, first)), ops);
    LookIsInOrder(w, env);
    LookFires(w, env);
    if Update(w.lid, env).state == OpenStart {
      LastedSoundly(w.approach, Approach(w.lid, env), w.lid.config.debounceDelay);
    }
  }

  /** And it always opens when all looks over the debounce time found someone near, if the
      counter was not zero at the first of them and has not come round since. */
  lemma IdleOpensSurely(
      nvs: Nvs, clock: nat, config: Config, first: Reading, ops: seq<Op>, env: Env, i: nat)
    requires LooksIdle(RunOps(Boot(nvs, clock, config, first), ops), Tick(env))
    requires
      var w := WatchAll(Fresh(Boot(nvs, clock, config, first)), ops);
      var look, looks := Approach(w.lid, env), w.approach;
      && i < |looks| && Wrap(looks[i].at) != 0 && GoodFrom(looks + [look], i)
      && look.at - looks[i].at >= w.lid.config.debounceDelay && look.at - looks[0].at < WRAP
    ensures Update(RunOps(Boot(nvs, clock, config, first), ops), env).state == OpenStart
  {
    hide Boot, RunOps, WatchAll, Update, Approach, LooksIdle, Lasted, Mark, GoodFrom, Kept, Wrap;
    WatchedFromBoot(nvs, clock, config, first, ops);
    var w := WatchAll(Fresh(Boot(nvs, clock, config, first)), ops);
    LookIsInOrder(w, env);
    LookFires(w, env);
    LastedSurely(w.approach, Approach(w.lid, env), w.lid.config.debounceDelay, i);
    LooksOrdered(w.approach, Approach(w.lid, env), 0, Mark(w.approach).value);
  }

  /** In any run: an idle tick ends a sensor deadlock exactly when this look and all looks
      back to the mark found the path clear, for 10 s counted modulo 2^32. Only looks of
      the idle state count, but those of earlier idle periods do. */
  lemma DeadlockEndsExactly(nvs: Nvs, clock: nat, config: Config, first: Reading, ops: seq<Op>, env: Env)
    requires LooksIdle(RunOps(Boot(nvs, clock, config, first), ops), Tick(env))
    requires RunOps(Boot(nvs, clock, config, first), ops).sense.deadlock
    ensures
      var w := WatchAll(Fresh(Boot(nvs, clock, config, first)), ops);
      var look, looks := Clearing(w.lid, env), w.clearing;
      var ends := !Update(w.lid, env).sense.deadlock;
      && w.lid == RunOps(Boot(nvs, clock, config, first), ops)
      && (ends <==> Lasted(looks, look, 10000))
      && (ends ==> Mark(looks).Some? && GoodFrom(looks + [look], Mark(looks).value) &&
                   look.at - looks[Mark(looks).value].at >= 10000)
  {
    hide Boot, RunOps, WatchAll, Update, Clearing, LooksIdle, Lasted, Mark, GoodFrom, InOrder, Kept;
    WatchedFromBoot(nvs, clock, config, first, ops);
    var w := WatchAll(Fresh(Boot(nvs, clock, config, first)), ops);
    LookIsInOrder(w, env);
    LookFires(w, env);
    if !Update(w.lid, env).sense.deadlock { LastedSoundly(w.clearing, Clearing(w.lid, env), 10000); }
  }
}
