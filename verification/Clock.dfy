/** Instants and durations are whole microseconds, the resolution of Python's `datetime`. */
module Clock {

  type Micros = int

  const SECOND: Micros := 1_000_000
  const HOUR: Micros := 3600 * SECOND
  const DAY: Micros := 24 * HOUR

  /** Whole seconds, rounded up: `ceil(delta.total_seconds())`. */
  function CeilSeconds(delta: Micros): (seconds: int)
    ensures (seconds - 1) * SECOND < delta <= seconds * SECOND
  {
    (delta + SECOND - 1) / SECOND
  }

  /** The epoch second an instant falls in: `int(moment.timestamp())`. */
  function FloorSeconds(moment: Micros): (seconds: int)
    ensures seconds * SECOND <= moment < (seconds + 1) * SECOND
  {
    moment / SECOND
  }

  function Max(a: int, b: int): int {
    if a < b then b else a
  }
}
