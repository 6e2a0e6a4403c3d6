/** Fixed-point sample types and the saturating primitives the QMF filter uses.

    Samples are unbounded integers restricted to the 16-bit and 32-bit two's
    complement ranges; every narrowing the C code performs is written out
    here as a clamp (saturation) or as a reduction modulo 2^32 (wrap-around). */
module FixedPoint {

  const Int16Min: int := -0x8000
  const Int16Max: int := 0x7FFF
  const Int32Min: int := -0x8000_0000
  const Int32Max: int := 0x7FFF_FFFF
  const TwoTo32: int := 0x1_0000_0000

  /** `int16_t` and `int32_t` values. */
  type Int16 = x: int | -0x8000 <= x <= 0x7FFF
  type Int32 = x: int | -0x8000_0000 <= x <= 0x7FFF_FFFF

  /** `uint16_t` values, the type of the all-pass coefficients. */
  type UInt16 = x: int | 0 <= x <= 0xFFFF

  /** The value in [lo, hi] nearest to v. */
  function Clamp(v: int, lo: int, hi: int): (r: int)
    requires lo <= hi
    ensures lo <= r <= hi
    ensures lo <= v <= hi ==> r == v
    ensures v < lo ==> r == lo
    ensures hi < v ==> r == hi
  {
    if v < lo then lo else if hi < v then hi else v
  }

  /** `WebRtcSpl_SubSatW32(a, b)`: a - b, saturated to the 32-bit range
      instead of wrapping. */
  function SubSatW32(a: int, b: int): (r: Int32)
    ensures Int32Min <= a - b <= Int32Max ==> r == a - b
    ensures a - b < Int32Min ==> r == Int32Min
    ensures Int32Max < a - b ==> r == Int32Max
  {
    Clamp(a - b, Int32Min, Int32Max)
  }

  /** `WebRtcSpl_SatW32ToW16(v)`: v saturated to the 16-bit range. */
  function SatW32ToW16(v: int): (r: Int16)
    ensures Int16Min <= v <= Int16Max ==> r == v
    ensures v < Int16Min ==> r == Int16Min
    ensures Int16Max < v ==> r == Int16Max
  {
    Clamp(v, Int16Min, Int16Max)
  }

  /** The 32-bit two's complement value congruent to v modulo 2^32, which is
      what storing an over-wide result into an `int32_t` gives. */
  function Wrap32(v: int): (r: Int32)
    ensures Int32Min <= v <= Int32Max ==> r == v
    ensures Int32Max < v <= Int32Max + TwoTo32 ==> r == v - TwoTo32
    ensures Int32Min - TwoTo32 <= v < Int32Min ==> r == v + TwoTo32
    decreases if v > Int32Max then v - Int32Min else if v < Int32Min then Int32Max - v else 0
  {
    if v > Int32Max then Wrap32(v - TwoTo32)
    else if v < Int32Min then Wrap32(v + TwoTo32)
    else v
  }

  /** The product a * d, written as a sum of a copies of d so that the
      verifier only unfolds it where a proof needs its value. */
  function Product(a: UInt16, d: int): int
    decreases a
  {
    if a == 0 then 0 else d + Product(a - 1, d)
  }

  /** `WEBRTC_SPL_SCALEDIFF32(a, diff, prev)`: prev plus the upper 32 bits of
      the 48-bit product a * diff (a is an unsigned Q16 coefficient), the sum
      kept in 32 bits. The macro lives in the signal-processing library header.
      Writing (diff >> 16) * a + (((diff & 0xFFFF) * a) >> 16) out, the two
      parts add up to floor(a * diff / 2^16) exactly, which is the form used
      here. */
  function ScaleDiff32(a: UInt16, diff: int, prev: int): Int32
  {
    Wrap32(prev + Product(a, diff) / 0x1_0000)
  }

  lemma {:induction false} ProductIsMul(a: UInt16, d: int)
    ensures Product(a, d) == a * d
    decreases a
  {
    if a > 0 {
      ProductIsMul(a - 1, d);
    }
  }

  /** `WEBRTC_SPL_SCALEDIFF32(a, diff, prev)` is prev + floor(a * diff / 2^16):
      exact when that fits in 32 bits, and otherwise off by one turn of 2^32,
      as the wrapping `int32_t` sum gives. */
  lemma ScaleDiff32Value(a: UInt16, diff: Int32, prev: Int32)
    ensures var v := prev + a * diff / 0x1_0000;
            && (Int32Min <= v <= Int32Max ==> ScaleDiff32(a, diff, prev) == v)
            && (Int32Max < v ==> ScaleDiff32(a, diff, prev) == v - TwoTo32)
            && (v < Int32Min ==> ScaleDiff32(a, diff, prev) == v + TwoTo32)
  {
    ProductIsMul(a, diff);
    QuotientBound(a, diff);
  }

  /** |a * diff / 2^16| stays below 2^31 for a 16-bit a and a 32-bit diff. */
  lemma QuotientBound(a: UInt16, diff: Int32)
    ensures Int32Min <= a * diff / 0x1_0000 <= Int32Max
  {
    if diff >= 0 {
      assert a * diff <= 0x1_0000 * diff;
    } else {
      assert a * diff >= 0x1_0000 * diff;
    }
  }

  /** `(v + 1024) >> 11` with the sum in `int32_t`: the sum wraps modulo
      2^32 as two's complement hardware does, then the arithmetic shift
      floors, as Dafny's division by a positive divisor does. Where the sum
      fits, this is v in Q11 rounded to the nearest integer, halves up;
      where it wraps, either way, the same holds for v moved by 2^32. */
  function RoundShift11(v: int): (r: int)
    ensures Int32Min <= v + 1024 <= Int32Max ==> 2048 * r - 1024 <= v < 2048 * r + 1024
    ensures Int32Max < v + 1024 <= Int32Max + TwoTo32 ==> 2048 * r - 1024 <= v - TwoTo32 < 2048 * r + 1024
    ensures Int32Min - TwoTo32 <= v + 1024 < Int32Min ==> 2048 * r - 1024 <= v + TwoTo32 < 2048 * r + 1024
    ensures -0x10_0000 <= r < 0x10_0000
  {
    Wrap32(v + 1024) / 2048
  }

  /** `(v + 512) >> 10` with the sum in `int32_t`: where the sum fits, v in
      Q10 rounded to the nearest integer, halves up. */
  function RoundShift10(v: int): (r: int)
    ensures Int32Min <= v + 512 <= Int32Max ==> 1024 * r - 512 <= v < 1024 * r + 512
    ensures Int32Max < v + 512 <= Int32Max + TwoTo32 ==> 1024 * r - 512 <= v - TwoTo32 < 1024 * r + 512
    ensures -0x20_0000 <= r < 0x20_0000
  {
    Wrap32(v + 512) / 1024
  }
}
