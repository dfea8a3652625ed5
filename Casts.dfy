/** The two machine integer types the pagination code uses, and the
    `as i64` conversion it applies to its `usize` offset and limit.
    A 64-bit target is assumed, so `usize` has 64 bits. */
module Casts {

  /** 2^64: the number of distinct 64-bit patterns. */
  const WORD: int := 0x1_0000_0000_0000_0000
  const I64_MIN: int := -0x8000_0000_0000_0000
  const I64_MAX: int := 0x7fff_ffff_ffff_ffff

  type Usize = x: int | 0 <= x < 0x1_0000_0000_0000_0000
  type I64 = x: int | -0x8000_0000_0000_0000 <= x <= 0x7fff_ffff_ffff_ffff

  /** `v as i64`: the i64 with the same 64-bit pattern as `v`, i.e. the
      one i64 congruent to `v` modulo 2^64 (see AsI64Unique). */
  function AsI64(v: Usize): (r: I64)
    ensures r % WORD == v
    ensures 0 <= r <==> v <= I64_MAX
  {
    if v <= I64_MAX then v else v - WORD
  }

  /** A value that fits in an i64 is carried over unchanged. */
  lemma AsI64KeepsSmall(v: Usize)
    requires v <= I64_MAX
    ensures AsI64(v) == v
  {
  }

  /** A value above i64::MAX wraps around to a negative number. */
  lemma AsI64WrapsLarge(v: Usize)
    requires I64_MAX < v
    ensures AsI64(v) == v - WORD && AsI64(v) < 0
  {
  }

  /** The congruence of AsI64 determines its result: no other i64 has the
      same bit pattern as `v`. */
  lemma AsI64Unique(v: Usize, i: I64)
    requires i % WORD == v
    ensures i == AsI64(v)
  {
  }

  /** Distinct `usize` values give distinct binds. */
  lemma AsI64Injective(v: Usize, w: Usize)
    requires AsI64(v) == AsI64(w)
    ensures v == w
  {
  }
}
