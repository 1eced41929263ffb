/** One clock for the program, the database and S3, in microseconds. */
module Clock {
  const TICKS_PER_SECOND := 1_000_000

  // The whole seconds of a time, as as_secs() and S3's timestamps give them.
  function Seconds(t: int): int {
    t / TICKS_PER_SECOND
  }
}
