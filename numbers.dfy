/** Go's fixed-width integers and time.Duration, with int64 wrap-around written out. */
module Numbers {

  const Two64: int := 0x1_0000_0000_0000_0000
  const MinInt64: int := -0x8000_0000_0000_0000
  const MaxInt64: int := 0x7FFF_FFFF_FFFF_FFFF

  type Int64 = x: int | MinInt64 <= x <= MaxInt64
  type Int16 = x: int | -0x8000 <= x <= 0x7FFF

  /** time.Duration: a signed 64-bit count of nanoseconds. */
  type Duration = Int64

  const Second: Duration := 1_000_000_000

  /** The value Go's int64 arithmetic yields for the mathematical result `x`. */
  function Wrap64(x: int): (r: Int64)
    ensures MinInt64 <= x <= MaxInt64 ==> r == x
    ensures (x - r) % Two64 == 0
  {
    (x - MinInt64) % Two64 + MinInt64
  }
}
