/**
 * Wall-clock instants and durations as unbounded integers.
 *
 * An instant is a number of nanoseconds since the Unix epoch (Go's `time.Time`
 * without a location); a duration is a number of nanoseconds (Go's
 * `time.Duration`). Dafny's `/` and `%` round toward minus infinity for a
 * positive divisor, which is what Go's `Time.Unix` and `Time.Nanosecond` do
 * for instants before the epoch as well.
 */
module Chrono {

  const Millisecond: int := 1_000_000
  const Second: int := 1_000_000_000

  /** The zero `time.Time{}`: January 1 of year 1, UTC, 62135596800 s before the epoch. */
  const ZeroTime: int := -62_135_596_800 * Second

  /** `time.Unix(sec, 0)`: the instant at a whole number of seconds. */
  function Unix(sec: int): (t: int)
    ensures t % Second == 0
    ensures UnixSeconds(t) == sec
  {
    sec * Second
  }

  /** `t.Unix()`: the whole seconds of `t`, rounded down. */
  function UnixSeconds(t: int): (s: int)
    ensures s * Second <= t < s * Second + Second
  {
    t / Second
  }

  /** `t.Nanosecond()`: the offset of `t` within its second. */
  function Nanos(t: int): (n: int)
    ensures 0 <= n < Second
    ensures t == UnixSeconds(t) * Second + n
  {
    t % Second
  }
}
