/**
 * The parts of Go's `time` package the events use. Instants are integers
 * counting nanoseconds from the Unix epoch; a `time.Duration` is a signed
 * 64-bit count of nanoseconds.
 */
module GoTime {

  const MinInt64: int := -0x8000_0000_0000_0000
  const MaxInt64: int := 0x7FFF_FFFF_FFFF_FFFF
  const TwoTo64: int := 0x1_0000_0000_0000_0000

  /** `time.Hour` in nanoseconds. */
  const Hour: int := 3_600_000_000_000

  /** The zero `time.Time` (1 January of year 1, UTC) in Unix nanoseconds. */
  const ZeroTime: int := -62_135_596_800_000_000_000

  predicate IsInt64(x: int) {
    MinInt64 <= x <= MaxInt64
  }

  /** `t.Sub(u)`: the difference, saturated to the range of a `Duration`. */
  function Sub(t: int, u: int): (d: int)
    ensures IsInt64(d)
    ensures IsInt64(t - u) ==> d == t - u
    ensures t - u > MaxInt64 ==> d == MaxInt64
    ensures t - u < MinInt64 ==> d == MinInt64
  {
    if t - u > MaxInt64 then MaxInt64
    else if t - u < MinInt64 then MinInt64
    else t - u
  }

  /** Two's-complement wrap-around of a signed 64-bit multiplication or addition. */
  function WrapInt64(x: int): (r: int)
    ensures IsInt64(r)
    ensures (x - r) % TwoTo64 == 0
    ensures IsInt64(x) ==> r == x
  {
    var m := x % TwoTo64;
    if m > MaxInt64 then m - TwoTo64 else m
  }
}
