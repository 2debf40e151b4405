/** A dwell timer kept in one counter value, where zero stands for "not running". It is
    fed by looks at a condition. */
module ZeroTimer {
  import opened Numeric

  datatype Look = Look(at: nat, good: bool)

  /** The timer after one more look. */
  function Stepped(t: u32, look: Look): u32 {
    if !look.good then 0 else if t == 0 then Wrap(look.at) else t
  }

  /** The look finds the timer running for long enough. */
  predicate Fires(t: u32, look: Look, ms: u32) {
    look.good && t != 0 && Since(Wrap(look.at), t) >= ms
  }

  function TimerAfter(h: seq<Look>): u32 {
    if h == [] then 0 else Stepped(TimerAfter(h[..|h| - 1]), h[|h| - 1])
  }

  predicate GoodFrom(h: seq<Look>, i: nat) {
    i < |h| && forall k :: i <= k < |h| ==> h[k].good
  }

  predicate InOrder(h: seq<Look>) {
    forall i, j :: 0 <= i < j < |h| ==> h[i].at <= h[j].at
  }

  /** The look the timer counts from: the first of the good ones at its end that the
      counter does not show as zero. */
  function Mark(h: seq<Look>): (r: Option<nat>)
    ensures r.Some? ==> GoodFrom(h, r.value) && Wrap(h[r.value].at) != 0
  {
    if h == [] || !h[|h| - 1].good then None
    else if Mark(h[..|h| - 1]).Some? then Mark(h[..|h| - 1])
    else if Wrap(h[|h| - 1].at) != 0 then Some(|h| - 1)
    else None
  }

  lemma {:induction false} MarkIsEarliest(h: seq<Look>, i: nat)
    requires GoodFrom(h, i) && Wrap(h[i].at) != 0
    ensures Mark(h).Some? && Mark(h).value <= i
  {
    if i < |h| - 1 {
      assert GoodFrom(h[..|h| - 1], i);
      MarkIsEarliest(h[..|h| - 1], i);
    }
  }

  lemma {:induction false} TimerTells(h: seq<Look>)
    ensures TimerAfter(h) == match Mark(h) case None => 0 case Some(m) => Wrap(h[m].at)
  {
    if h != [] { TimerTells(h[..|h| - 1]); }
  }

  /** After the looks h, one more and all since the mark are good, and the time from the
      mark, counted modulo 2^32, is long enough. */
  predicate Lasted(h: seq<Look>, look: Look, ms: u32) {
    look.good && Mark(h).Some? && Counted(look.at - h[Mark(h).value].at) >= ms
  }

  /** The timer knows this from one counter value. */
  lemma FiresExactly(h: seq<Look>, look: Look, ms: u32)
    requires InOrder(h + [look])
    ensures Fires(TimerAfter(h), look, ms) <==> Lasted(h, look, ms)
  {
    TimerTells(h);
    if Mark(h).Some? {
      var m := Mark(h).value;
      assert (h + [look])[m] == h[m] && (h + [look])[|h|] == look;
      SinceIsElapsed(look.at, h[m].at);
    }
  }

  lemma CountedIsAtMost(span: nat)
    ensures Counted(span) <= span && (span < WRAP ==> Counted(span) == span)
  {
  }

  lemma GoodToTheEnd(h: seq<Look>, look: Look, i: nat)
    requires i < |h|
    ensures GoodFrom(h + [look], i) <==> GoodFrom(h, i) && look.good
  {
    var all := h + [look];
    assert all[|h|] == look && forall k :: 0 <= k < |h| ==> all[k] == h[k];
  }

  /** In real time: never without as long a stretch of good looks ... */
  lemma LastedSoundly(h: seq<Look>, look: Look, ms: u32)
    requires InOrder(h + [look]) && Lasted(h, look, ms)
    ensures Mark(h).Some?
    ensures GoodFrom(h + [look], Mark(h).value) && look.at - h[Mark(h).value].at >= ms
  {
    hide Mark;
    var m := Mark(h).value;
    GoodToTheEnd(h, look, m);
    assert (h + [look])[m] == h[m] && (h + [look])[|h|] == look;
    CountedIsAtMost(look.at - h[m].at);
  }

  /** ... and always with one that starts at a counter value other than zero, as long as
      the good looks fall within one turn of the counter. */
  lemma LastedSurely(h: seq<Look>, look: Look, ms: u32, i: nat)
    requires InOrder(h + [look]) && i < |h| && Wrap(h[i].at) != 0 && GoodFrom(h + [look], i)
    requires look.at - h[i].at >= ms
    ensures Mark(h).Some? && Mark(h).value <= i
    ensures look.at - h[Mark(h).value].at < WRAP ==> Lasted(h, look, ms)
  {
    hide Mark, GoodFrom, InOrder, Counted;
    GoodToTheEnd(h, look, i);
    MarkIsEarliest(h, i);
    var m := Mark(h).value;
    LooksOrdered(h, look, m, i);
    CountedIsAtMost(look.at - h[m].at);
  }

  lemma LooksOrdered(h: seq<Look>, look: Look, m: nat, i: nat)
    requires InOrder(h + [look]) && m <= i < |h|
    ensures h[m].at <= h[i].at <= look.at
  {
    var all := h + [look];
    assert all[m] == h[m] && all[i] == h[i] && all[|h|] == look;
  }
}
