/** The fixed-width integers of the program, written out over Dafny's unbounded `int`. */
module Ints {

  const TwoTo63: int := 0x8000_0000_0000_0000
  const TwoTo64: int := 0x1_0000_0000_0000_0000

  /** Rust's `i64`. */
  type I64 = x: int | -TwoTo63 <= x < TwoTo63

  /** Rust's `u16` (ports). */
  type U16 = x: int | 0 <= x < 0x1_0000

  predicate InI64(x: int) {
    -TwoTo63 <= x < TwoTo63
  }

  /** Two's-complement wrap-around of an `i64` operation whose exact result is `x`. */
  function WrapI64(x: int): (r: I64)
    ensures InI64(x) ==> r == x
    ensures (r - x) % TwoTo64 == 0
  {
    var q := (x + TwoTo63) / TwoTo64;
    assert (x + TwoTo63) % TwoTo64 == x + TwoTo63 - q * TwoTo64;
    var r := (x + TwoTo63) % TwoTo64 - TwoTo63;
    assert r - x == -(q * TwoTo64);
    CongruentByMultiple(r - x, -q);
    r
  }

  lemma CongruentByMultiple(d: int, k: int)
    requires d == k * TwoTo64
    ensures d % TwoTo64 == 0
  {
  }
}
