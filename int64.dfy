/**
 * Go's `int64`: the type of the hit count, of the thresholds and of the
 * persisted total. Go's `+` on int64 wraps around modulo 2^64; `WrapAdd`
 * models that, `Wrap` folds any integer into the int64 range the same way.
 */
module Int64 {

  const TWO_TO_THE_63: int := 0x8000_0000_0000_0000
  const TWO_TO_THE_64: int := 0x1_0000_0000_0000_0000

  newtype int64 = x: int | -0x8000_0000_0000_0000 <= x < 0x8000_0000_0000_0000

  /** True when `x` is representable as an int64 without wrapping. */
  predicate InRange(x: int) {
    -TWO_TO_THE_63 <= x < TWO_TO_THE_63
  }

  /** Two's-complement truncation of an unbounded integer to 64 bits. */
  function Wrap(x: int): (r: int64)
    ensures (r as int - x) % TWO_TO_THE_64 == 0
    ensures InRange(x) ==> r as int == x
  {
    ((x + TWO_TO_THE_63) % TWO_TO_THE_64 - TWO_TO_THE_63) as int64
  }

  /** Go's `a + b` on int64 operands. */
  function WrapAdd(a: int64, b: int64): (r: int64)
    ensures InRange(a as int + b as int) ==> r as int == a as int + b as int
    ensures a >= 0 && b >= 0 && !InRange(a as int + b as int) ==> r < 0
  {
    Wrap(a as int + b as int)
  }

  /** Wrapping an intermediate sum does not change the wrapped total:
      Go's step-by-step int64 sum equals the wrapped mathematical sum. */
  lemma WrapOfWrapped(a: int, b: int)
    ensures Wrap(Wrap(a) as int + b) == Wrap(a + b)
  {
  }
}
