/** Machine scalars used by the renderer: 32-bit unsigned integers, bytes and
    IEEE-754 single-precision floats.

    Floats are modelled by their value class only: a finite value is an exact
    real (no rounding), plus the two infinities and NaN, so that comparisons
    behave as Rust's `f32` comparisons do (every comparison with NaN is false). */
module Scalar {

  const U32_LIMIT: int := 0x1_0000_0000
  const U32_MAX: int := 0xffff_ffff

  newtype u32 = x: int | 0 <= x < 0x1_0000_0000
  newtype byte = x: int | 0 <= x < 0x100

  /** `n as u32` for a non-negative `n`, and the result of a wrapping `u32` addition. */
  function WrapU32(n: nat): (r: u32)
    ensures n < U32_LIMIT ==> r as int == n
    ensures (r as int - n) % U32_LIMIT == 0
  {
    (n % U32_LIMIT) as u32
  }

  datatype F32 = Finite(value: real) | Infinity(negative: bool) | NaN

  /** `a <= b` on `f32`. */
  predicate Le(a: F32, b: F32)
  {
    match (a, b)
    case (NaN, _) => false
    case (_, NaN) => false
    case (Infinity(na), Infinity(nb)) => na || !nb
    case (Infinity(na), Finite(_)) => na
    case (Finite(_), Infinity(nb)) => !nb
    case (Finite(x), Finite(y)) => x <= y
  }

  /** `a < b` on `f32`. */
  predicate Lt(a: F32, b: F32)
  {
    Le(a, b) && !Le(b, a)
  }

  /** `a == b` on `f32` (`PartialEq`): false whenever either side is NaN. */
  predicate F32Eq(a: F32, b: F32)
  {
    Le(a, b) && Le(b, a)
  }

  /** Float equality is structural equality away from NaN, and NaN equals nothing,
      not even itself. */
  lemma {:induction false} F32EqIsEqualityOffNaN(a: F32, b: F32)
    ensures F32Eq(a, b) <==> a == b && !a.NaN?
  {
    match (a, b)
    case (Finite(x), Finite(y)) => assert F32Eq(a, b) ==> x == y;
    case _ =>
  }

  /** `(lo..=hi).contains(&x)`: `lo <= x && x <= hi`. */
  predicate InInclusiveRange(x: F32, lo: F32, hi: F32)
  {
    Le(lo, x) && Le(x, hi)
  }

  /** `(scale / 255.0) * (c as f32)`, the per-channel scaling of a decoded image,
      with exact arithmetic on finite values. */
  function ScaleChannel(scale: F32, c: byte): (r: F32)
    ensures scale.Finite? ==> r.Finite?
    ensures scale.Finite? && scale.value >= 0.0 ==> 0.0 <= r.value <= scale.value
    ensures scale.NaN? ==> r.NaN?
  {
    var texScale := match scale
      case Finite(v) => Finite(v / 255.0)
      case Infinity(n) => Infinity(n)
      case NaN => NaN;
    match texScale
    case Finite(t) =>
      assert t >= 0.0 ==> 0.0 <= t * (c as real) <= t * 255.0 by {
        if t >= 0.0 { MulMonotone(t, c as real, 255.0); }
      }
      Finite(t * (c as real))
    case Infinity(n) => if c == 0 then NaN else Infinity(n)
    case NaN => NaN
  }

  lemma MulMonotone(t: real, a: real, b: real)
    requires t >= 0.0 && 0.0 <= a <= b
    ensures 0.0 <= t * a <= t * b
  {
  }

  /** With scale 1 every channel lands in the unit interval. */
  lemma UnitScaleChannelInUnitRange(c: byte)
    ensures InInclusiveRange(ScaleChannel(Finite(1.0), c), Finite(0.0), Finite(1.0))
  {
  }

  // ---------------------------------------------------------------------------
  // Integer arithmetic facts used by the proofs

  lemma MulLe(a: int, b: int, n: int)
    requires 0 <= a <= b && n >= 0
    ensures a * n <= b * n
  {
  }

  lemma SmallMultipleIsZero(n: int, d: int)
    requires n > 0 && 0 <= n * d < n
    ensures d == 0
  {
    if d >= 1 {
      MulLe(1, d, n);
    } else if d <= -1 {
      MulLe(1, -d, n);
    }
  }

  /** A multiple of `a` leaves no remainder. */
  lemma MultipleModZero(a: int, q: int)
    requires a > 0
    ensures (a * q) % a == 0
  {
    var x := a * q;
    assert x == a * (x / a) + x % a;
    assert a * (q - x / a) == x % a;
    SmallMultipleIsZero(a, q - x / a);
  }
}
