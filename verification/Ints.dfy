/** Machine integers of the program: message numbers are uint64, durations are int64. */
module Ints {
  const MAX_UINT64: int := 0xFFFF_FFFF_FFFF_FFFF
  const TWO63: int := 0x8000_0000_0000_0000
  const TWO64: int := 0x1_0000_0000_0000_0000
  const NANOS_PER_MILLI: int := 1_000_000
  /** The largest number of milliseconds whose nanoseconds fit in 63 bits. */
  const MAX_MILLIS: int := 9_223_372_036_854

  type uint64 = x: int | 0 <= x <= MAX_UINT64
  type int64 = x: int | -TWO63 <= x < TWO63

  function Max(a: int, b: int): int {
    if a < b then b else a
  }

  /** Two's complement wrap-around of a 64-bit signed result. */
  function Wrap64(x: int): (r: int64)
    ensures (r - x) % TWO64 == 0
    ensures -TWO63 <= x < TWO63 ==> r == x
  {
    var m := x % TWO64;
    if m < TWO63 then m else m - TWO64
  }

  /** time.Duration(ms) * time.Millisecond, then how long a timer or sleep of that duration lasts. */
  function Pause(ms: int64): (ns: nat)
  {
    Max(0, Wrap64(ms * NANOS_PER_MILLI))
  }

  /** It lasts the signed 64-bit number that is congruent to the product, and no time if that is negative. */
  lemma PauseIsTheWrappedProduct(ms: int64, ns: int)
    requires -0x8000_0000_0000_0000 <= ns < 0x8000_0000_0000_0000
    requires (ns - ms * 1_000_000) % 0x1_0000_0000_0000_0000 == 0
    ensures Pause(ms) == if ns > 0 then ns else 0
  {
    var product, w := ms * 1_000_000, Wrap64(ms * NANOS_PER_MILLI);
    assert (w - product) % TWO64 == 0;
    var j, k := (ns - product) / TWO64, (w - product) / TWO64;
    assert ns - w == (j - k) * TWO64;
  }

  /** A pause is as long as its milliseconds say exactly when they do not overflow the nanosecond count. */
  lemma PauseIsExact(ms: int64)
    requires ms > 0
    ensures Pause(ms) >= ms * NANOS_PER_MILLI <==> ms <= MAX_MILLIS
    ensures ms <= MAX_MILLIS ==> Pause(ms) == ms * NANOS_PER_MILLI
  {
    if ms > MAX_MILLIS {
      assert ms * NANOS_PER_MILLI >= TWO63;
    }
  }
}
