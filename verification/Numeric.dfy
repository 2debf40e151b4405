/** The two number systems the firmware computes in: a 32-bit millisecond
    counter that wraps, and floating-point measurements that may be NaN or
    infinite. Finite measurements are exact reals. */
module Numeric {

  const WRAP: nat := 0x1_0000_0000

  type u32 = x: nat | x < WRAP witness 0

  /** What `millis()` shows at real time t. */
  function Wrap(t: nat): u32 {
    t % WRAP
  }

  /** `uint32_t(now - at)`. */
  function Since(now: u32, at: u32): u32 {
    if at <= now then now - at else now + WRAP - at
  }

  /** A span of real time as the counter shows it. */
  function Counted(span: int): (r: u32)
    ensures 0 <= span < WRAP ==> r == span
  {
    span % WRAP
  }

  /** The counter measures real time modulo 2^32, across any number of wraps. */
  lemma SinceIsElapsed(now: nat, at: nat)
    requires at <= now
    ensures Since(Wrap(now), Wrap(at)) == (now - at) % WRAP
    ensures now - at < WRAP ==> Since(Wrap(now), Wrap(at)) == now - at
    ensures Since(Wrap(now), Wrap(at)) <= now - at
  {
    var d := now - at;
    assert now == at / WRAP * WRAP + Wrap(at) + d / WRAP * WRAP + d % WRAP;
    var low := Wrap(at) + d % WRAP;
    if low < WRAP {
      UniqueRemainder(now, at / WRAP + d / WRAP, low);
    } else {
      UniqueRemainder(now, at / WRAP + d / WRAP + 1, low - WRAP);
    }
  }

  lemma UniqueRemainder(n: nat, q: int, r: u32)
    requires n == q * WRAP + r
    ensures Wrap(n) == r
  {
  }

  /** Two successive measurements from one origin add up, unless they carry past
      the width of the counter. */
  lemma SinceAdds(origin: u32, mid: u32, now: u32)
    requires Since(mid, origin) + Since(now, mid) < WRAP
    ensures Since(now, origin) == Since(mid, origin) + Since(now, mid)
  {
  }

  datatype Float = NaN | NegInf | PosInf | Fin(r: real) {

    predicate Le(other: Float) {
      match (this, other)
      case (Fin(a), Fin(b)) => a <= b
      case (NaN, _) => false
      case (_, NaN) => false
      case (NegInf, _) => true
      case (_, PosInf) => true
      case (_, _) => false
    }

    predicate Lt(other: Float) {
      Le(other) && !other.Le(this)
    }

    function Abs(): Float {
      match this
      case Fin(a) => Fin(if a < 0.0 then -a else a)
      case NegInf => PosInf
      case _ => this
    }
  }

  function Max(a: real, b: real): real {
    if a < b then b else a
  }

  datatype Option<+T> = None | Some(value: T)
}
