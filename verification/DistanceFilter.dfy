/** The distance the lid controller acts on: the median of the last five readings. */
module DistanceFilter {

  const FAR: real := 999.0
  const WIDTH: nat := 5

  /** The last five readings, the oldest first. */
  type Window = s: seq<real> | |s| == 5 witness [0.0, 0.0, 0.0, 0.0, 0.0]

  const ALL_FAR: Window := [FAR, FAR, FAR, FAR, FAR]

  function Pushed(w: Window, raw: real): Window {
    w[1..] + [raw]
  }

  function PushedAll(w: Window, raws: seq<real>): Window
    decreases |raws|
  {
    if raws == [] then w else PushedAll(Pushed(w, raws[0]), raws[1..])
  }

  lemma {:induction false} LastFive(w: Window, raws: seq<real>)
    ensures PushedAll(w, raws) == (w + raws)[|raws|..]
    decreases |raws|
  {
    if raws != [] {
      LastFive(Pushed(w, raws[0]), raws[1..]);
      assert (w + raws)[1..] == Pushed(w, raws[0]) + raws[1..];
    }
  }

  // ---- The median ----

  /** How many of the readings are at most d. */
  function Within(readings: seq<real>, d: real): (n: nat)
    ensures n <= |readings|
  {
    if readings == [] then 0
    else Within(readings[..|readings| - 1], d) + if readings[|readings| - 1] <= d then 1 else 0
  }

  /** The median of five: the least distance that three of them are within. */
  ghost predicate IsMedian(readings: seq<real>, m: real) {
    Within(readings, m) >= 3 && forall d :: d < m ==> Within(readings, d) < 3
  }

  lemma {:induction false} WithinUpdate(s: seq<real>, i: nat, v: real, d: real)
    requires i < |s|
    ensures Within(s[i := v], d) == Within(s, d) - (if s[i] <= d then 1 else 0) + (if v <= d then 1 else 0)
  {
    var last := |s| - 1;
    if i < last {
      assert s[i := v][..last] == s[..last][i := v];
      WithinUpdate(s[..last], i, v, d);
    } else {
      assert s[i := v][..last] == s[..last];
    }
  }

  lemma WithinSnoc(s: seq<real>, v: real, d: real)
    ensures Within(s + [v], d) == Within(s, d) + (if v <= d then 1 else 0)
  {
    assert (s + [v])[..|s|] == s;
  }

  lemma {:induction false} WithinJoin(a: seq<real>, b: seq<real>, d: real)
    ensures Within(a + b, d) == Within(a, d) + Within(b, d)
  {
    if b == [] {
      assert a + b == a;
    } else {
      var last := |b| - 1;
      WithinJoin(a, b[..last], d);
      assert (a + b)[..|a| + last] == a + b[..last];
    }
  }

  /** v among sorted values. */
  function Inserted(s: seq<real>, v: real): (t: seq<real>)
    ensures |t| == |s| + 1
  {
    if s == [] || v < s[0] then [v] + s else [s[0]] + Inserted(s[1..], v)
  }

  function Sorted(s: seq<real>): (t: seq<real>)
    ensures |t| == |s|
  {
    if s == [] then [] else Inserted(Sorted(s[..|s| - 1]), s[|s| - 1])
  }

  predicate Ordered(s: seq<real>) {
    forall i, j :: 0 <= i < j < |s| ==> s[i] <= s[j]
  }

  function Median(w: Window): real {
    Sorted(w)[2]
  }

  lemma {:induction false} InsertedOrdered(s: seq<real>, v: real)
    requires Ordered(s)
    ensures Ordered(Inserted(s, v))
    ensures Inserted(s, v)[0] == if s == [] || v < s[0] then v else s[0]
  {
    if s != [] && s[0] <= v { InsertedOrdered(s[1..], v); }
  }

  lemma {:induction false} InsertedWithin(s: seq<real>, v: real, d: real)
    ensures Within(Inserted(s, v), d) == Within(s, d) + (if v <= d then 1 else 0)
  {
    if s == [] || v < s[0] {
      WithinJoin([v], s, d);
    } else {
      InsertedWithin(s[1..], v, d);
      assert s == [s[0]] + s[1..];
      WithinJoin([s[0]], s[1..], d);
      WithinJoin([s[0]], Inserted(s[1..], v), d);
    }
  }

  lemma {:induction false} SortedMeans(s: seq<real>)
    ensures Ordered(Sorted(s))
    ensures forall d :: Within(Sorted(s), d) == Within(s, d)
  {
    if s != [] {
      var rest, last := s[..|s| - 1], s[|s| - 1];
      SortedMeans(rest);
      InsertedOrdered(Sorted(rest), last);
      forall d ensures Within(Sorted(s), d) == Within(s, d) { InsertedWithin(Sorted(rest), last, d); }
    }
  }

  /** Five values in order, written out. */
  lemma MiddleIsMedian(s: seq<real>)
    requires |s| == 5 && s[0] <= s[1] <= s[2] <= s[3] <= s[4]
    ensures IsMedian(s, s[2])
  {
    forall d ensures Within(s, d) == Within(s[..2], d) + (if s[2] <= d then 1 else 0) + (if s[3] <= d then 1 else 0)
                                     + (if s[4] <= d then 1 else 0)
    {
      assert s == s[..2] + [s[2]] + [s[3]] + [s[4]];
      WithinSnoc(s[..2], s[2], d);
      WithinSnoc(s[..2] + [s[2]], s[3], d);
      WithinSnoc(s[..2] + [s[2]] + [s[3]], s[4], d);
    }
    assert s[..2] == [] + [s[0]] + [s[1]];
    WithinSnoc([], s[0], s[2]);
    WithinSnoc([] + [s[0]], s[1], s[2]);
  }

  lemma MedianIsOne(w: Window)
    ensures IsMedian(w, Median(w))
  {
    SortedMeans(w);
    MiddleIsMedian(Sorted(w));
  }

  lemma {:induction false} WithinMonotone(s: seq<real>, d: real, e: real)
    requires d <= e
    ensures Within(s, d) <= Within(s, e)
  {
    if s != [] { WithinMonotone(s[..|s| - 1], d, e); }
  }

  /** The filter sees something within d exactly when three of the last five readings do.
      Two wrong readings change nothing. */
  lemma SeenByMajority(w: Window, d: real)
    ensures Median(w) <= d <==> Within(w, d) >= 3
  {
    MedianIsOne(w);
    if Median(w) <= d { WithinMonotone(w, Median(w), d); }
  }

  lemma MedianIsUnique(w: Window, m: real)
    requires IsMedian(w, m)
    ensures m == Median(w)
  {
    MedianIsOne(w);
  }

  /** How many of the readings are nearer than d. */
  function Nearer(readings: seq<real>, d: real): (n: nat)
    ensures n <= |readings|
  {
    if readings == [] then 0
    else Nearer(readings[..|readings| - 1], d) + if readings[|readings| - 1] < d then 1 else 0
  }

  /** A distance just below d, past every reading that is nearer than d. */
  function JustBelow(readings: seq<real>, d: real): (e: real)
    ensures e < d
  {
    if readings == [] then d - 1.0
    else
      var e, last := JustBelow(readings[..|readings| - 1], d), readings[|readings| - 1];
      if e < last < d then last else e
  }

  lemma {:induction false} NearerIsWithin(s: seq<real>, d: real, e: real)
    requires JustBelow(s, d) <= e < d
    ensures Nearer(s, d) == Within(s, e)
  {
    if s != [] { NearerIsWithin(s[..|s| - 1], d, e); }
  }

  /** The filtered distance is nearer than d exactly when three of the last five readings are. */
  lemma NearByMajority(w: Window, d: real)
    ensures Median(w) < d <==> Nearer(w, d) >= 3
  {
    var m, e := Median(w), JustBelow(w, d);
    SeenByMajority(w, e);
    NearerIsWithin(w, d, e);
    if m < d {
      var f := if e < m then m else e;
      SeenByMajority(w, f);
      NearerIsWithin(w, d, f);
    }
  }

  // ---- The controller's ring ----

  predicate Exchanged(s: seq<real>, t: seq<real>, i: nat, j: nat) {
    |s| == |t| && i < j < |s| && t == s[i := s[j]][j := s[i]]
  }

  lemma ExchangeKeeps(s: seq<real>, t: seq<real>, i: nat, j: nat)
    requires Exchanged(s, t, i, j)
    ensures forall d :: Within(t, d) == Within(s, d)
  {
    forall d ensures Within(t, d) == Within(s, d) {
      WithinUpdate(s, i, s[j], d);
      WithinUpdate(s[i := s[j]], j, s[i], d);
    }
  }

  /** A ring whose oldest reading is at index i, unrolled. */
  function Unrolled(ring: seq<real>, i: nat): seq<real>
    requires i <= |ring|
  {
    ring[i..] + ring[..i]
  }

  class Filter {
    const history: array<real>
    var index: nat

    predicate Valid()
      reads this
    {
      history.Length == WIDTH && index < WIDTH
    }

    function Contents(): Window
      reads this, history
    {
      if Valid() then Unrolled(history[..], index) else ALL_FAR
    }

    constructor ()
      ensures Valid() && fresh(history) && Contents() == ALL_FAR
    {
      history := new real[WIDTH](_ => FAR);
      index := 0;
    }

    method Reset()
      requires Valid()
      modifies this, history
      ensures Valid() && Contents() == ALL_FAR
    {
      for i := 0 to WIDTH
        invariant forall k :: 0 <= k < i ==> history[k] == FAR
      {
        history[i] := FAR;
      }
      index := 0;
    }

    method UpdateBuffer(raw: real)
      requires Valid()
      modifies this, history
      ensures Valid() && Contents() == Pushed(old(Contents()), raw)
    {
      hide Unrolled;
      Turned(history[..], raw, index);
      history[index] := raw;
      index := (index + 1) % WIDTH;
    }

    method Copy() returns (sorted: array<real>)
      requires Valid()
      ensures fresh(sorted) && sorted[..] == history[..]
    {
      sorted := new real[WIDTH];
      for i := 0 to WIDTH
        invariant forall k :: 0 <= k < i ==> sorted[k] == history[k]
      {
        sorted[i] := history[i];
      }
    }

    /** The middle one of the readings, found by exchanges on a copy. */
    method GetFilteredDistance() returns (m: real)
      requires Valid()
      ensures m == Median(Contents())
    {
      hide Within, Median;
      var sorted := Copy();
      for i := 0 to WIDTH - 1
        invariant forall d :: Within(sorted[..], d) == Within(history[..], d)
        invariant forall a, b :: 0 <= a < i && a < b < WIDTH ==> sorted[a] <= sorted[b]
      {
        for j := i + 1 to WIDTH
          invariant forall d :: Within(sorted[..], d) == Within(history[..], d)
          invariant forall a, b :: 0 <= a < i && a < b < WIDTH ==> sorted[a] <= sorted[b]
          invariant forall b :: i < b < j ==> sorted[i] <= sorted[b]
        {
          if sorted[i] > sorted[j] {
            ghost var before := sorted[..];
            sorted[i], sorted[j] := sorted[j], sorted[i];
            ExchangeKeeps(before, sorted[..], i, j);
          }
        }
      }
      m := sorted[2];
      MiddleIsMedian(sorted[..]);
      UnrollingKeeps(history[..], index);
      MedianIsUnique(Contents(), m);
    }
  }

  lemma Turned(ring: seq<real>, raw: real, i: nat)
    requires |ring| == WIDTH && i < WIDTH
    ensures Unrolled(ring[i := raw], (i + 1) % WIDTH) == Unrolled(ring, i)[1..] + [raw]
  {
  }

  lemma UnrollingKeeps(ring: seq<real>, i: nat)
    requires i <= |ring|
    ensures forall d :: Within(Unrolled(ring, i), d) == Within(ring, d)
  {
    forall d ensures Within(Unrolled(ring, i), d) == Within(ring, d) {
      WithinJoin(ring[i..], ring[..i], d);
      WithinJoin(ring[..i], ring[i..], d);
      assert ring[..i] + ring[i..] == ring;
    }
  }
}
