/** Times as the server and the CLI see them: nanoseconds since Go's zero time. */
module Clock {
  const ZERO_TIME: int := 0

  const SECOND: int := 1_000_000_000

  function Seconds(ns: int): real {
    ns as real / 1000000000.0
  }
}
